/** The part of the Kubernetes API server the protocols rely on: named objects,
    each stamped with a resourceVersion that is never used twice. */
module ApiServer {
  datatype Object<T> = Object(value: T, version: nat)

  datatype Store<T> = Store(objects: map<string, Object<T>>, next: nat)

  /** How one API call ends. Failed stands for every error other than the three
      the callers tell apart; a failed call has no effect. */
  datatype Outcome = Done | AlreadyExists | NotFound | Conflict | Failed

  function Put<T>(s: Store<T>, name: string, value: T): Store<T> {
    Store(s.objects[name := Object(value, s.next)], s.next + 1)
  }

  function Remove<T>(s: Store<T>, name: string): Store<T> {
    s.(objects := s.objects - {name})
  }

  predicate Has<T(==)>(s: Store<T>, name: string, o: Object<T>) {
    name in s.objects && s.objects[name] == o
  }

  /** The precondition of a compare-and-swap Update or Delete. */
  predicate AtVersion<T>(s: Store<T>, name: string, version: nat) {
    name in s.objects && s.objects[name].version == version
  }

  ghost predicate VersionsUsed<T>(s: Store<T>) {
    forall name <- s.objects :: s.objects[name].version < s.next
  }

  /** t is a later state of s: whatever t holds was already in s, untouched, or
      was written since and so carries a version s had not handed out. */
  ghost predicate Evolves<T>(s: Store<T>, t: Store<T>) {
    && s.next <= t.next
    && VersionsUsed(t)
    && forall name <- t.objects :: Has(s, name, t.objects[name]) || s.next <= t.objects[name].version
  }

  lemma EvolvesTransitive<T>(s: Store<T>, t: Store<T>, u: Store<T>)
    requires Evolves(s, t) && Evolves(t, u)
    ensures Evolves(s, u)
  {
    forall name <- u.objects
      ensures Has(s, name, u.objects[name]) || s.next <= u.objects[name].version
    {
      assert Has(t, name, u.objects[name]) || t.next <= u.objects[name].version;
    }
  }

  /** A version seen at s and found again at u was in place at every state in between. */
  lemma SameVersionSameObject<T>(s: Store<T>, t: Store<T>, u: Store<T>, name: string, o: Object<T>)
    requires VersionsUsed(s) && Evolves(s, t) && Evolves(t, u)
    requires Has(s, name, o) && AtVersion(u, name, o.version)
    ensures Has(t, name, o) && Has(u, name, o)
  {
    EvolvesTransitive(s, t, u);
    var last := u.objects[name];
    assert Has(s, name, last);
    assert Has(t, name, last);
  }
}
