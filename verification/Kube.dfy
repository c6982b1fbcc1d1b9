/** The Kubernetes API as the controllers see it: a store of objects and calls that may fail. */
module Kube {
  datatype Option<+T> = None | Some(value: T)

  const MANAGED_BY := "app.kubernetes.io/managed-by"

  /** The name of the add-on, and the value its spoke part labels its objects with. */
  const ADDON := "argocd-agent-addon"

  /** Value of a label, annotation or data entry; a missing entry reads as the empty string. */
  function Entry(m: map<string, string>, k: string): string { if k in m then m[k] else "" }

  datatype Key = Key(kind: string, ns: string, name: string)

  /** What happens to one API call.
      Rejected: the server refuses it (conflict, throttling, forbidden, unreachable) and nothing changes.
      Lost: a write takes effect but the caller is told it failed; a read simply fails. */
  datatype Outcome = Accepted | Rejected | Lost

  datatype Error = NotFound | AlreadyExists | Failed

  datatype Reply<+O> = Found(obj: O) | Missing(error: Error)

  function GetReply<O>(store: map<Key, O>, k: Key, o: Outcome): Reply<O> {
    if !o.Accepted? then Missing(Failed) else if k in store then Found(store[k]) else Missing(NotFound)
  }

  function AfterCreate<O>(store: map<Key, O>, k: Key, obj: O, o: Outcome): map<Key, O> {
    if o.Rejected? || k in store then store else store[k := obj]
  }

  function CreateError<O>(store: map<Key, O>, k: Key, o: Outcome): Option<Error> {
    if !o.Accepted? then Some(Failed) else if k in store then Some(AlreadyExists) else None
  }

  function AfterUpdate<O>(store: map<Key, O>, k: Key, obj: O, o: Outcome): map<Key, O> {
    if o.Rejected? || k !in store then store else store[k := obj]
  }

  function AfterDelete<O>(store: map<Key, O>, k: Key, o: Outcome): map<Key, O> {
    if o.Rejected? then store else store - {k}
  }

  /** An Update or a Delete of an object that is not there is answered with NotFound. */
  function WriteError<O>(store: map<Key, O>, k: Key, o: Outcome): Option<Error> {
    if !o.Accepted? then Some(Failed) else if k !in store then Some(NotFound) else None
  }

  /** The API server itself, for the controllers that are modelled as imperative code. */
  class ApiServer<O> {
    var store: map<Key, O>

    constructor (store: map<Key, O>)
      ensures this.store == store
    {
      this.store := store;
    }

    method Get(k: Key, o: Outcome) returns (r: Reply<O>)
      ensures r == GetReply(store, k, o)
    {
      if o != Accepted {
        return Missing(Failed);
      }
      if k in store {
        return Found(store[k]);
      }
      return Missing(NotFound);
    }

    method Create(k: Key, obj: O, o: Outcome) returns (e: Option<Error>)
      modifies this
      ensures store == AfterCreate(old(store), k, obj, o)
      ensures e == CreateError(old(store), k, o)
    {
      e := if o != Accepted then Some(Failed) else if k in store then Some(AlreadyExists) else None;
      if o != Rejected && k !in store {
        store := store[k := obj];
      }
    }

    method Update(k: Key, obj: O, o: Outcome) returns (e: Option<Error>)
      modifies this
      ensures store == AfterUpdate(old(store), k, obj, o)
      ensures e == WriteError(old(store), k, o)
    {
      e := if o != Accepted then Some(Failed) else if k !in store then Some(NotFound) else None;
      if o != Rejected && k in store {
        store := store[k := obj];
      }
    }

    method Delete(k: Key, o: Outcome) returns (e: Option<Error>)
      modifies this
      ensures store == AfterDelete(old(store), k, o)
      ensures e == WriteError(old(store), k, o)
    {
      e := if o != Accepted then Some(Failed) else if k !in store then Some(NotFound) else None;
      if o != Rejected {
        store := store - {k};
      }
    }
  }
}
