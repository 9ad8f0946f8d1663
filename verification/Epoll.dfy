/**
 Channel (channel.h, channel.cpp) and the registration half of EPollPoller (epoller.cpp).  `kernel` is
 the interest set that the kernel keeps for the epoll descriptor; only epoll_ctl changes it.
 */
module Epoll {

  /** EPOLLIN, EPOLLPRI, EPOLLOUT, EPOLLERR, EPOLLHUP, EPOLLRDHUP; a mask is the set of its flags. */
  datatype Flag = In | Pri | Out | Err | Hup | RdHup

  type Mask = set<Flag>

  const NONE_EVENT: Mask := {}
  const READ_EVENT: Mask := {In, Pri}
  const WRITE_EVENT: Mask := {Out}

  /** kNew, kAdded, kDeleted */
  datatype Index = New | Added | Deleted

  datatype Operation = CtlAdd | CtlMod | CtlDel

  datatype Interest = Interest(channel: Channel, events: Mask)

  predicate Writes(events: Mask)
  {
    Out in events
  }

  class EPollPoller {
    var channels: map<int, Channel>
    var kernel: map<int, Interest>
    var ctlFailures: nat               // how often the failure branch of update() was taken
    ghost var members: set<Channel>    // the channels made for this poller

    constructor ()
      ensures Valid() && channels == map[] && kernel == map[] && members == {}
    {
      channels, kernel, ctlFailures, members := map[], map[], 0, {};
    }

    /** channels_ holds exactly the fds whose channel is not kNew, one channel each. */
    ghost predicate Indexed()
      reads this, members
    {
      && (forall c :: c in members ==> c.poller == this)
      && (forall fd :: fd in channels ==>
            channels[fd] in members && channels[fd].fd == fd && !channels[fd].index.New?)
      && (forall c :: c in members && !c.index.New? ==> c.fd in channels && channels[c.fd] == c)
    }

    /** A channel is kAdded exactly when the kernel holds its fd for it. */
    ghost predicate Registered()
      reads this, members
    {
      && (forall fd :: fd in kernel ==>
            kernel[fd].channel in members && kernel[fd].channel.fd == fd && kernel[fd].channel.index.Added?)
      && (forall c :: c in members && c.index.Added? ==> c.fd in kernel && kernel[c.fd].channel == c)
    }

    /** The kernel watches for the channel's current mask, and a kDeleted channel has an empty one. */
    ghost predicate InSync(c: Channel)
      reads this, c
    {
      && (c.index.Added? ==> c.fd in kernel && kernel[c.fd].events == c.events)
      && (c.index.Deleted? ==> c.events == NONE_EVENT)
    }

    ghost predicate ValidBut(x: Channel)
      reads this, members
    {
      Indexed() && Registered() && forall c :: c in members && c != x ==> InSync(c)
    }

    ghost predicate Valid()
      reads this, members
    {
      Indexed() && Registered() && forall c :: c in members ==> InSync(c)
    }

    /** No other channel is active on the fd of c. */
    predicate SoleOn(c: Channel)
      reads this, c
    {
      c.index.New? ==> c.fd !in channels
    }

    /** epoll_ctl(2): adding a present fd fails with EEXIST, changing or deleting an absent one with ENOENT. */
    static function EpollCtl(kernel: map<int, Interest>, op: Operation, fd: int, event: Interest):
      (bool, map<int, Interest>)
    {
      match op
      case CtlAdd => if fd in kernel then (false, kernel) else (true, kernel[fd := event])
      case CtlMod => if fd in kernel then (true, kernel[fd := event]) else (false, kernel)
      case CtlDel => if fd in kernel then (true, kernel - {fd}) else (false, kernel)
    }

    method Update(op: Operation, channel: Channel)
      modifies this`kernel, this`ctlFailures
      ensures var (ok, k) := EpollCtl(old(kernel), op, channel.fd, Interest(channel, channel.events));
        kernel == k && ctlFailures == old(ctlFailures) + if ok then 0 else 1
    {
      var (ok, k) := EpollCtl(kernel, op, channel.fd, Interest(channel, channel.events));
      kernel := k;
      if !ok {
        ctlFailures := ctlFailures + 1;
      }
    }

    /** Brings poller and kernel in line with the mask of the channel, which may have changed since the
        last call.  Provided no other channel is active on its fd, every epoll_ctl call is legal; without
        that, the call fails exactly when an inactive channel is added over an fd the kernel holds. */
    method UpdateChannel(channel: Channel)
      requires channel in members && ValidBut(channel)
      modifies this`channels, this`kernel, this`ctlFailures, channel`index
      ensures ctlFailures == old(ctlFailures) + if !old(channel.index.Added?) && channel.fd in old(kernel) then 1 else 0
      ensures old(SoleOn(channel)) ==> Valid() && ctlFailures == old(ctlFailures)
      ensures channels == if old(channel.index.New?) then old(channels)[channel.fd := channel] else old(channels)
      ensures old(SoleOn(channel)) ==>
        if old(channel.index.Added?) && channel.events == NONE_EVENT
        then channel.index == Deleted && kernel == old(kernel) - {channel.fd}
        else channel.index == Added && kernel == old(kernel)[channel.fd := Interest(channel, channel.events)]
    {
      if channel.index.New? || channel.index.Deleted? {
        if channel.index.New? {
          channels := channels[channel.fd := channel];
        }
        channel.index := Added;
        Update(CtlAdd, channel);
      } else if channel.events == NONE_EVENT {
        Update(CtlDel, channel);
        channel.index := Deleted;
      } else {
        Update(CtlMod, channel);
      }
    }

    method RemoveChannel(channel: Channel)
      requires channel in members && Valid() && SoleOn(channel)
      modifies this`channels, this`kernel, this`ctlFailures, channel`index
      ensures Valid() && ctlFailures == old(ctlFailures)
      ensures channel.index == New && channel.fd !in channels && channel.fd !in kernel
      ensures channels == old(channels) - {channel.fd} && kernel == old(kernel) - {channel.fd}
    {
      channels := channels - {channel.fd};
      if channel.index.Added? {
        Update(CtlDel, channel);
      }
      channel.index := New;
    }
  }

  class Channel {
    const poller: EPollPoller
    const fd: int
    var events: Mask
    var index: Index

    constructor (poller: EPollPoller, fd: int)
      requires poller.Valid()
      modifies poller`members
      ensures this.poller == poller && this.fd == fd
      ensures events == NONE_EVENT && index == New
      ensures poller.Valid() && poller.members == old(poller.members) + {this}
    {
      this.poller, this.fd := poller, fd;
      events, index := NONE_EVENT, New;
      new;
      poller.members := poller.members + {this};
    }

    predicate IsWriting()
      reads this
    {
      Writes(events)
    }

    /** The channel may be changed: its poller is consistent and no other channel is active on its fd. */
    ghost predicate Ready()
      reads this, poller, poller.members
    {
      this in poller.members && poller.Valid() && poller.SoleOn(this)
    }

    lemma HeldIffAdded()
      requires Ready()
      ensures fd in poller.kernel <==> index.Added?
      ensures index.Added? ==> poller.kernel[fd] == Interest(this, events)
    {
      assert poller.InSync(this);
      if fd in poller.kernel && !index.New? {
        var other := poller.kernel[fd].channel;
        assert poller.channels[other.fd] == other;
      }
    }

    /** Is EPOLLOUT of this fd in the kernel's interest set? */
    ghost predicate KernelWatchesOut()
      reads this, poller
    {
      fd in poller.kernel && Out in poller.kernel[fd].events
    }

    /** What every change of the mask leaves behind: the mask `mask`, known to the kernel unless it
        emptied a registered one. */
    twostate predicate Settled(mask: Mask)
      reads this, poller, poller.members
      requires old(allocated(poller))
    {
      && Ready() && poller.ctlFailures == old(poller.ctlFailures)
      && poller.members == old(poller.members)
      && events == mask
      && poller.channels == old(poller.channels)[fd := this]
      && if old(index.Added?) && mask == NONE_EVENT
         then index == Deleted && poller.kernel == old(poller.kernel) - {fd}
         else index == Added && poller.kernel == old(poller.kernel)[fd := Interest(this, mask)]
    }

    method EnableReading()
      requires Ready()
      modifies this`events, this`index, poller`channels, poller`kernel, poller`ctlFailures
      ensures Settled(old(events) + {In, Pri})
      ensures index == Added
    {
      events := events + READ_EVENT;
      poller.UpdateChannel(this);
    }

    method DisableReading()
      requires Ready()
      modifies this`events, this`index, poller`channels, poller`kernel, poller`ctlFailures
      ensures Settled(old(events) - {In, Pri})
      ensures IsWriting() == old(IsWriting())
    {
      events := events - READ_EVENT;
      poller.UpdateChannel(this);
    }

    method EnableWriting()
      requires Ready()
      modifies this`events, this`index, poller`channels, poller`kernel, poller`ctlFailures
      ensures Settled(old(events) + {Out})
      ensures IsWriting() && KernelWatchesOut()
    {
      events := events + WRITE_EVENT;
      poller.UpdateChannel(this);
    }

    method DisableWriting()
      requires Ready()
      modifies this`events, this`index, poller`channels, poller`kernel, poller`ctlFailures
      ensures Settled(old(events) - {Out})
      ensures !IsWriting() && !KernelWatchesOut()
    {
      events := events - WRITE_EVENT;
      poller.UpdateChannel(this);
    }

    /** On a channel that is not registered this issues an ADD with the empty mask. */
    method DisableAll()
      requires Ready()
      modifies this`events, this`index, poller`channels, poller`kernel, poller`ctlFailures
      ensures Settled({})
      ensures fd in poller.kernel <==> !old(index.Added?)
    {
      events := NONE_EVENT;
      poller.UpdateChannel(this);
    }

    method Remove()
      requires Ready()
      modifies this`index, poller`channels, poller`kernel, poller`ctlFailures
      ensures Ready() && index == New && poller.ctlFailures == old(poller.ctlFailures)
      ensures poller.channels == old(poller.channels) - {fd} && poller.kernel == old(poller.kernel) - {fd}
    {
      poller.RemoveChannel(this);
    }
  }

  // ----- event dispatch -----

  datatype Callback = CloseCallback | ErrorCallback | ReadCallback | WriteCallback

  /** The callbacks of one handleEvent() call, in order. */
  function Dispatch(revents: Mask): seq<Callback>
  {
    (if Hup in revents && In !in revents then [CloseCallback] else [])
    + (if Err in revents then [ErrorCallback] else [])
    + (if revents * {In, Pri, RdHup} != {} then [ReadCallback] else [])
    + (if Out in revents then [WriteCallback] else [])
  }

  /** Which callbacks an event runs, each once, the close callback before the others and the write
      callback after them.  No event that the kernel reports for a channel goes unheard, but for EPOLLHUP
      with EPOLLIN, which is heard as input. */
  lemma DispatchHears(revents: Mask)
    ensures CloseCallback in Dispatch(revents) <==> Hup in revents && In !in revents
    ensures ErrorCallback in Dispatch(revents) <==> Err in revents
    ensures ReadCallback in Dispatch(revents) <==> In in revents || Pri in revents || RdHup in revents
    ensures WriteCallback in Dispatch(revents) <==> Out in revents
    ensures forall i, j :: 0 <= i < j < |Dispatch(revents)| ==>
      Rank(Dispatch(revents)[i]) < Rank(Dispatch(revents)[j])
    ensures revents != {} ==> Dispatch(revents) != []
  {
    var both := revents * {In, Pri, RdHup};
    assert In in both || Pri in both || RdHup in both <==> both != {};
    if revents != {} {
      var flag :| flag in revents;
      match flag
      case Hup => assert In in revents || CloseCallback in Dispatch(revents);
      case _ =>
    }
  }

  function Rank(c: Callback): nat
  {
    match c
    case CloseCallback => 0
    case ErrorCallback => 1
    case ReadCallback => 2
    case WriteCallback => 3
  }

  /** One event runs both the close and the read callback, each of which may close the connection, just
      when EPOLLHUP comes without EPOLLIN but with EPOLLPRI or EPOLLRDHUP. */
  lemma ClosesAndReads(revents: Mask)
    ensures CloseCallback in Dispatch(revents) && ReadCallback in Dispatch(revents) <==>
      Hup in revents && In !in revents && (Pri in revents || RdHup in revents)
  {
    DispatchHears(revents);
  }
}
