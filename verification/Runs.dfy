/** Runs of a protocol: the worlds it passes through and the actions between them. */
module Runs {
  datatype History<W, A> = History(worlds: seq<W>, actions: seq<A>)

  ghost function Last<W, A>(run: History<W, A>): nat {
    |run.actions|
  }

  ghost predicate Extends<W(!new), A(!new)>(r: History<W, A>, s: History<W, A>) {
    r.worlds <= s.worlds && r.actions <= s.actions
  }
}
