/** The per-descriptor event handler: its interest set and the order in which it dispatches. */
module EventHandlers {

  const EPOLLIN: bv16 := 0x001
  const EPOLLPRI: bv16 := 0x002
  const EPOLLOUT: bv16 := 0x004
  const EPOLLERR: bv16 := 0x008
  const EPOLLHUP: bv16 := 0x010
  const EPOLLRDHUP: bv16 := 0x2000

  const READ: bv16 := EPOLLIN | EPOLLPRI
  const WRITE: bv16 := EPOLLOUT

  predicate Has(events: bv16, mask: bv16) {
    events & mask != 0
  }

  datatype Callback = OnClose | OnError | OnRead | OnWrite

  /** The callbacks `HandleEvent` runs, in order, for the events epoll returned. */
  function Dispatched(revents: bv16): seq<Callback> {
    Faults(revents) + Transfers(revents)
  }

  function Faults(revents: bv16): seq<Callback> {
    (if Has(revents, EPOLLHUP) && !Has(revents, EPOLLIN) then [OnClose] else [])
    + (if Has(revents, EPOLLERR) then [OnError] else [])
  }

  function Transfers(revents: bv16): seq<Callback> {
    (if Has(revents, EPOLLIN | EPOLLPRI | EPOLLRDHUP) then [OnRead] else [])
    + (if Has(revents, EPOLLOUT) then [OnWrite] else [])
  }

  /** epoll reports hang-up and errors always, anything else only to a handler that asked for it. */
  predicate Deliverable(revents: bv16, events: bv16) {
    (Has(revents, EPOLLIN | EPOLLPRI | EPOLLRDHUP) ==> Has(events, READ))
    && (Has(revents, EPOLLOUT) ==> Has(events, WRITE))
  }

  class EventHandler {
    var events: bv16
    var eventHandling: bool

    constructor ()
      ensures !IsCareRead() && !IsCareWrite() && !eventHandling
    {
      events, eventHandling := 0, false;
    }

    predicate IsCareRead()
      reads this
    {
      Has(events, READ)
    }

    predicate IsCareWrite()
      reads this
    {
      Has(events, WRITE)
    }

    method SetCareRead()
      modifies this`events
      ensures IsCareRead() && IsCareWrite() == old(IsCareWrite())
    {
      events := events | READ;
    }

    method SetCareWrite()
      modifies this`events
      ensures IsCareWrite() && IsCareRead() == old(IsCareRead())
    {
      events := events | WRITE;
    }

    method SetStopCareWrite()
      modifies this`events
      ensures !IsCareWrite() && IsCareRead() == old(IsCareRead())
    {
      events := events & !WRITE;
    }

    method SetStopCareAll()
      modifies this`events
      ensures !IsCareWrite() && !IsCareRead()
    {
      events := events & 0;
    }
  }
}
