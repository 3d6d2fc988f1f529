/** Fan-out of watch events to a work queue through a mapper: each event's
    object(s) are mapped to reconcile requests, and every request is added to
    the queue in the order the mapper produced it. */
module Handler {
  import opened Results

  /** Which objects of an update event are mapped (an unsigned 8-bit value). */
  newtype UpdateBehavior = b: int | 0 <= b < 256

  /** Map the old object, then the new one. */
  const UpdateWithOldAndNew: UpdateBehavior := 0
  /** Map only the old object. */
  const UpdateWithOld: UpdateBehavior := 1
  /** Map only the new object. */
  const UpdateWithNew: UpdateBehavior := 2

  datatype CreateEvent<O> = CreateEvent(obj: O)
  datatype UpdateEvent<O> = UpdateEvent(objectOld: O, objectNew: O)
  datatype DeleteEvent<O> = DeleteEvent(obj: O)
  datatype GenericEvent<O> = GenericEvent(obj: O)

  /** A mapper built from a plain function from an object to the requests to enqueue. */
  datatype Mapper<-O, R> = MapFunc(fn: O -> seq<R>) {
    function Map(obj: O): seq<R>
    {
      fn(obj)
    }
  }

  /** The work queue, seen only through the items added to it, oldest first. */
  class Queue<R> {
    var added: seq<R>

    constructor ()
      ensures added == []
    {
      added := [];
    }

    method Add(item: R)
      modifies this
      ensures added == old(added) + [item]
    {
      added := added + [item];
    }
  }

  /** An event handler that enqueues the requests its mapper returns. */
  class EnqueueRequestsFromMapper<O, R> {
    var mapper: Mapper<O, R>
    var updateBehavior: UpdateBehavior

    constructor (mapper: Mapper<O, R>, updateBehavior: UpdateBehavior)
      ensures this.mapper == mapper && this.updateBehavior == updateBehavior
    {
      this.mapper := mapper;
      this.updateBehavior := updateBehavior;
    }

    /** The handler for a mapping function maps both objects of an update. */
    constructor EnqueueRequestsFromMapFunc(fn: O -> seq<R>)
      ensures mapper == MapFunc(fn) && forall o :: mapper.Map(o) == fn(o)
      ensures updateBehavior == UpdateWithOldAndNew
    {
      mapper := MapFunc(fn);
      updateBehavior := UpdateWithOldAndNew;
    }

    /** Adds every request the mapper returns for `obj`, in order, after what
        the queue already holds. */
    method MapAndEnqueue(q: Queue<R>, obj: O)
      modifies q
      ensures q.added == old(q.added) + mapper.Map(obj)
    {
      var requests := mapper.Map(obj);
      for i := 0 to |requests|
        invariant q.added == old(q.added) + requests[..i]
      {
        q.Add(requests[i]);
      }
    }

    method Create(evt: CreateEvent<O>, q: Queue<R>)
      modifies q
      ensures q.added == old(q.added) + mapper.Map(evt.obj)
    {
      MapAndEnqueue(q, evt.obj);
    }

    /** The update behaviour chooses the old object, the new one, or both (old
        first, duplicates kept); any other value enqueues nothing. */
    method Update(evt: UpdateEvent<O>, q: Queue<R>)
      modifies q
      ensures updateBehavior == UpdateWithOldAndNew ==>
        q.added == old(q.added) + mapper.Map(evt.objectOld) + mapper.Map(evt.objectNew)
      ensures updateBehavior == UpdateWithOld ==>
        q.added == old(q.added) + mapper.Map(evt.objectOld)
      ensures updateBehavior == UpdateWithNew ==>
        q.added == old(q.added) + mapper.Map(evt.objectNew)
      ensures updateBehavior !in {UpdateWithOldAndNew, UpdateWithOld, UpdateWithNew} ==>
        q.added == old(q.added)
    {
      match updateBehavior
      case 0 =>
        MapAndEnqueue(q, evt.objectOld);
        MapAndEnqueue(q, evt.objectNew);
      case 1 =>
        MapAndEnqueue(q, evt.objectOld);
      case 2 =>
        MapAndEnqueue(q, evt.objectNew);
      case _ =>
    }

    method Delete(evt: DeleteEvent<O>, q: Queue<R>)
      modifies q
      ensures q.added == old(q.added) + mapper.Map(evt.obj)
    {
      MapAndEnqueue(q, evt.obj);
    }

    method Generic(evt: GenericEvent<O>, q: Queue<R>)
      modifies q
      ensures q.added == old(q.added) + mapper.Map(evt.obj)
    {
      MapAndEnqueue(q, evt.obj);
    }

    /** Passes the mapper to an injection function; a nil function is a
        successful no-op. The mapper is not replaced either way. */
    method InjectFunc(f: Option<Mapper<O, R> -> Option<Error>>) returns (err: Option<Error>)
      ensures f.None? ==> err == None
      ensures f.Some? ==> err == f.value(mapper)
    {
      if f.None? {
        return None;
      }
      err := f.value(mapper);
    }
  }
}
