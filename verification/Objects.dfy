/** Objects in the API server: writes are conditional on the version that was
    read, from any cache however stale. */
module Objects {

  /** One version of an object. No two versions are equal, and an object that is
      deleted and created again has another uid. */
  datatype Object<C> = Object(name: string, uid: nat, version: nat, content: C)

  /** The objects that exist by name, every version there ever was, and the next
      version. */
  datatype Store<!C(==)> = Store(objects: map<string, Object<C>>, ever: set<Object<C>>, next: nat)

  datatype Call<C> =
    | Create(name: string, content: C)
    | Update(listed: Object<C>, content: C)
    | Delete(listed: Object<C>)

  datatype Reply = Done | NotFound | AlreadyExists | Conflict | Failed

  predicate IsCurrent<C(==)>(s: Store<C>, listed: Object<C>) {
    listed.name in s.objects && s.objects[listed.name].uid == listed.uid && s.objects[listed.name].version == listed.version
  }

  /** The call changes the store: the name is free, or the version that was
      listed is still the one there is. */
  predicate Hits<C(==)>(s: Store<C>, call: Call<C>) {
    match call
    case Create(name, _) => name !in s.objects
    case Update(listed, _) => IsCurrent(s, listed)
    case Delete(listed) => IsCurrent(s, listed)
  }

  function NameOf<C>(call: Call<C>): string {
    match call
    case Create(name, _) => name
    case Update(listed, _) => listed.name
    case Delete(listed) => listed.name
  }

  function Put<C>(s: Store<C>, o: Object<C>): Store<C> {
    Store(s.objects[o.name := o], s.ever + {o}, s.next + 1)
  }

  function Take<C(==)>(s: Store<C>, call: Call<C>): Store<C> {
    if !Hits(s, call) then s
    else
      match call
      case Create(name, content) => Put(s, Object(name, s.next, s.next, content))
      case Update(listed, content) => Put(s, Object(listed.name, listed.uid, s.next, content))
      case Delete(listed) => s.(objects := s.objects - {listed.name})
  }

  ghost predicate StoreOk<C(!new)>(s: Store<C>) {
    && (forall n :: n in s.objects ==> s.objects[n].name == n && s.objects[n] in s.ever)
    && (forall o :: o in s.ever ==> o.version < s.next)
    && (forall o, p :: o in s.ever && p in s.ever && o.version == p.version ==> o == p)
  }

  lemma {:induction false} TakeKeeps<C(!new)>(s: Store<C>, call: Call<C>)
    requires StoreOk(s)
    ensures StoreOk(Take(s, call)) && s.ever <= Take(s, call).ever
  {
  }

  /** Whatever was listed before, a write only hits the very object that was
      listed, and changes no other. */
  lemma {:induction false} HitsWhatWasListed<C(!new)>(s: Store<C>, call: Call<C>)
    requires StoreOk(s)
    requires !call.Create? ==> call.listed in s.ever
    ensures Hits(s, call) && !call.Create? ==> s.objects[NameOf(call)] == call.listed
    ensures !Hits(s, call) ==> Take(s, call) == s
    ensures forall n :: n != NameOf(call) ==> (n in Take(s, call).objects <==> n in s.objects)
    ensures forall n :: n != NameOf(call) && n in s.objects ==> Take(s, call).objects[n] == s.objects[n]
  {
  }
}
