/**
 The connector (connector.cpp): a state machine that owns at most one socket at a time.

 What the kernel and the clock do is a parameter: `attempts` lists the sockets that the next connect()
 calls get and how each call ends.  retry() calls start() again and again; when the list is used up the
 call is still under way, so that a finite list stands for a finite part of it.

 The ledger numbers the sockets in the order of their creation and records what became of each.
 */
module Connecting {

  import opened Epoll

  datatype ConnectorState = Disconnected | Connecting | Connected

  /** errno after connect(), with Success for 0 */
  datatype Errno =
    | Success | EINPROGRESS | EINTR | EISCONN
    | EAGAIN | EADDRINUSE | EADDRNOTAVAIL | ECONNREFUSED | ENETUNREACH
    | EACCES | EPERM | EAFNOSUPPORT | EALREADY | EBADF | EFAULT | ENOTSOCK
    | OtherErrno

  datatype Attempt = Attempt(fd: int, errno: Errno)

  /** InFlight: in a local variable of a running call; Owned: registered by channel_; Leaked: its channel
      was dropped while registered.  A socket is closed or handed off only from InFlight, hence once. */
  datatype Fate = InFlight | Owned | Closed | HandedOff | Leaked

  datatype Option<T> = None | Some(value: T)

  predicate Proceeds(errno: Errno)
  {
    errno == Success || errno == EINPROGRESS || errno == EINTR || errno == EISCONN
  }

  predicate Retries(errno: Errno)
  {
    errno == EAGAIN || errno == EADDRINUSE || errno == EADDRNOTAVAIL || errno == ECONNREFUSED || errno == ENETUNREACH
  }

  /** The calls reach a connect() that proceeds: the first errno that is not retried decides. */
  predicate Lands(attempts: seq<Attempt>)
  {
    attempts != [] &&
    (Proceeds(attempts[0].errno) || (Retries(attempts[0].errno) && Lands(attempts[1..])))
  }

  /** How many sockets the calls create: one for each errno that is retried, and one for what comes next. */
  function Used(attempts: seq<Attempt>): nat
  {
    if attempts == [] then 0 else if Retries(attempts[0].errno) then 1 + Used(attempts[1..]) else 1
  }

  /** The attempt that decides. */
  function LastUsed(attempts: seq<Attempt>): (i: nat)
    requires attempts != []
    ensures i < |attempts| && i == Used(attempts) - 1
  {
    if Retries(attempts[0].errno) && |attempts| > 1 then 1 + LastUsed(attempts[1..]) else 0
  }

  /** Lands and Used in closed form, errno by errno. */
  lemma {:induction false} FirstNotRetriedDecides(attempts: seq<Attempt>)
    ensures Used(attempts) <= |attempts|
    ensures forall i :: 0 <= i < Used(attempts) - 1 ==>
      attempts[i].errno in {EAGAIN, EADDRINUSE, EADDRNOTAVAIL, ECONNREFUSED, ENETUNREACH}
    ensures Used(attempts) < |attempts| ==>
      && Used(attempts) > 0
      && attempts[Used(attempts) - 1].errno !in {EAGAIN, EADDRINUSE, EADDRNOTAVAIL, ECONNREFUSED, ENETUNREACH}
    ensures Lands(attempts) <==>
      attempts != [] && attempts[Used(attempts) - 1].errno in {Success, EINPROGRESS, EINTR, EISCONN}
  {
    if attempts != [] && Retries(attempts[0].errno) {
      var rest := attempts[1..];
      FirstNotRetriedDecides(rest);
      assert forall i :: 1 <= i < |attempts| ==> attempts[i] == rest[i - 1];
    }
  }

  /** From entry n on, the ledger has what these calls create: all closed, but for the last one if they
      reach a connect() that proceeds. */
  predicate Created(n: nat, attempts: seq<Attempt>, fates: seq<Fate>)
  {
    && |fates| == n + Used(attempts)
    && forall t :: n <= t < |fates| ==> fates[t] == if Lands(attempts) && t == |fates| - 1 then Owned else Closed
  }

  predicate Leaks(before: seq<Fate>, after: seq<Fate>)
  {
    exists t :: 0 <= t < |before| && t < |after| && before[t] != Leaked && after[t] == Leaked
  }

  // ----- runs of calls -----

  /** What a caller sees of the connector between two calls. */
  datatype View = View(state: ConnectorState, connect: bool, fates: seq<Fate>)

  datatype Call =
    | StartOrRestart(attempts: seq<Attempt>)
    | StopCall
    | Callback(fails: bool, attempts: seq<Attempt>)   // handleWrite(), or handleError(), which always fails

  predicate Settles(fate: Fate)
  {
    fate == Closed || fate == HandedOff
  }

  /** Settled sockets stay as they are, and the owned one settles as told. */
  predicate Settled(before: seq<Fate>, fate: Fate, after: seq<Fate>)
  {
    && |before| <= |after|
    && forall t :: 0 <= t < |before| ==> after[t] == if before[t] == Owned then fate else before[t]
  }

  /** What a call does, if start() and restart() are not called while connecting. */
  predicate CallStep(call: Call, v: View, w: View)
  {
    match call
    case StartOrRestart(attempts) =>
      && v.state != Connecting && w.connect
      && v.fates <= w.fates && Created(|v.fates|, attempts, w.fates)
      && (w.state == Connecting <==> Lands(attempts))
    case StopCall =>
      && w.state != Connecting && !w.connect
      && Settled(v.fates, Closed, w.fates) && |w.fates| == |v.fates|
    case Callback(fails, attempts) =>
      if v.state != Connecting then w == v
      else if fails then
        && w.connect == v.connect
        && Settled(v.fates, Closed, w.fates) && Created(|v.fates|, attempts, w.fates)
        && (w.state == Connecting <==> Lands(attempts))
      else
        && w.state == Connected && w.connect == v.connect
        && Settled(v.fates, HandedOff, w.fates) && |w.fates| == |v.fates|
  }

  predicate IsRun(calls: seq<Call>, views: seq<View>)
  {
    && |views| == |calls| + 1
    && views[0] == View(Disconnected, false, [])
    && forall i :: 0 <= i < |calls| ==> CallStep(calls[i], views[i], views[i + 1])
  }

  predicate Owns(v: View, t: int)
  {
    0 <= t < |v.fates| && v.fates[t] == Owned
  }

  /** Each socket is owned, closed or handed off; one is owned while connecting and none otherwise. */
  ghost predicate AccountedFor(v: View)
  {
    && (forall t: nat :: t < |v.fates| ==> Owns(v, t) || Settles(v.fates[t]))
    && (forall t, u :: Owns(v, t) && Owns(v, u) ==> t == u)
    && (v.state == Connecting <==> exists t :: Owns(v, t))
  }

  lemma CallKeepsAccount(call: Call, v: View, w: View)
    requires AccountedFor(v) && CallStep(call, v, w)
    ensures AccountedFor(w)
  {
    forall t | Owns(w, t) && t < |v.fates| ensures Owns(v, t) {}
    if w.state == Connecting && v != w {
      assert Owns(w, |w.fates| - 1);
    }
  }

  lemma {:induction false} EverySocketIsAccountedFor(calls: seq<Call>, views: seq<View>, i: nat)
    requires IsRun(calls, views) && i < |views|
    ensures AccountedFor(views[i])
  {
    if i > 0 {
      EverySocketIsAccountedFor(calls, views, i - 1);
      CallKeepsAccount(calls[i - 1], views[i - 1], views[i]);
    }
  }

  /** A socket closed or handed off stays so, hence it is settled once and in one way only. */
  lemma {:induction false} SettledForGood(calls: seq<Call>, views: seq<View>, i: nat, j: nat, t: nat)
    requires IsRun(calls, views) && i <= j < |views| && t < |views[i].fates| && Settles(views[i].fates[t])
    ensures t < |views[j].fates| && views[j].fates[t] == views[i].fates[t]
    decreases j
  {
    if i < j {
      SettledForGood(calls, views, i, j - 1, t);
      assert CallStep(calls[j - 1], views[j - 1], views[j]);
    }
  }

  /** After stop() and until the next start() or restart() nothing is created, handed off or even closed:
      what was left to close stop() has closed itself. */
  lemma {:induction false} QuietAfterStop(calls: seq<Call>, views: seq<View>, i: nat, j: nat)
    requires IsRun(calls, views) && i < j < |views| && calls[i] == StopCall
    requires forall k :: i < k < j ==> !calls[k].StartOrRestart?
    ensures views[j].fates == views[i + 1].fates && views[j].state != Connecting
    ensures Settled(views[i].fates, Closed, views[j].fates) && |views[j].fates| == |views[i].fates|
    decreases j
  {
    assert CallStep(calls[j - 1], views[j - 1], views[j]);
    if i + 1 < j {
      QuietAfterStop(calls, views, i, j - 1);
      EverySocketIsAccountedFor(calls, views, j - 1);
      forall t: nat | t < |views[j - 1].fates| ensures views[j].fates[t] == views[j - 1].fates[t] {
        assert !Owns(views[j - 1], t);
      }
      assert views[j].fates == views[j - 1].fates;
    }
  }

  class Connector {
    const poller: EPollPoller
    var state: ConnectorState
    var connect: bool
    var channel: Channel?
    ghost var fates: seq<Fate>   // the ledger: what became of each socket
    ghost var owned: nat         // the entry of the socket that channel_ owns

    /** The kernel reports when the connect of the owned socket is over, and nothing else about it. */
    ghost predicate Watched()
      reads this, poller, if channel == null then {} else {channel}
    {
      channel != null ==>
        && channel.events == {Out}
        && channel.fd in poller.kernel && poller.kernel[channel.fd] == Interest(channel, {Out})
    }

    /** The ledger agrees with the fields; `flying` is the entry in flight, if any. */
    ghost predicate Wired(flying: int)
      reads this, poller, poller.members, if channel == null then {} else {channel}
    {
      && poller.Valid()
      && -1 <= flying < |fates|
      && (forall t :: 0 <= t < |fates| ==> (fates[t] == InFlight <==> t == flying))
      && (forall t :: 0 <= t < |fates| ==> (fates[t] == Owned <==> channel != null && t == owned))
      && (channel != null ==> channel in poller.members && channel.index.Added? && owned < |fates|)
      && Watched()
    }

    /** channel_ is set exactly in state kConnecting. */
    ghost predicate Linked()
      reads this, poller, poller.members, if channel == null then {} else {channel}
    {
      Wired(-1) && (channel != null <==> state == Connecting)
    }

    /** Between callbacks, connect_ is true while connecting. */
    ghost predicate Valid()
      reads this, poller, poller.members, if channel == null then {} else {channel}
    {
      Linked() && (state == Connecting ==> connect)
    }

    ghost function Seen(): View
      reads this
    {
      View(state, connect, fates)
    }

    constructor (poller: EPollPoller)
      requires poller.Valid()
      ensures Valid() && this.poller == poller && state == Disconnected && !connect && fates == []
      ensures Seen() == View(Disconnected, false, [])
    {
      this.poller := poller;
      state, connect, channel := Disconnected, false, null;
      fates, owned := [], 0;
    }

    /** The sockets to come are not registered: the kernel gives out descriptors that are not open. */
    ghost predicate Unused(attempts: seq<Attempt>)
      reads poller
    {
      forall i :: 0 <= i < |attempts| ==> attempts[i].fd !in poller.channels
    }

    /** As Unused, once the owned socket is closed: its descriptor may be given out again. */
    ghost predicate UnusedThen(attempts: seq<Attempt>)
      reads this, poller, if channel == null then {} else {channel}
    {
      forall i :: 0 <= i < |attempts| ==>
        attempts[i].fd !in poller.channels || (channel != null && attempts[i].fd == channel.fd)
    }

    /** What these calls do to the ledger.  The socket `flying` is closed.  If they reach a connect() that
        proceeds, a socket owned before is leaked. */
    twostate predicate Ledger(flying: int, attempts: seq<Attempt>)
      reads this
    {
      && Created(|old(fates)|, attempts, fates)
      && forall t :: 0 <= t < |old(fates)| ==>
           fates[t] == (if t == flying then Closed
                        else if Lands(attempts) && old(channel) != null && t == old(owned) then Leaked
                        else old(fates)[t])
    }

    /** What else they do: channel_ becomes a new channel, registered for the last socket, if they reach a
        connect() that proceeds, and nothing is registered otherwise. */
    twostate predicate Registers(attempts: seq<Attempt>)
      reads this, poller, poller.members, if channel == null then {} else {channel}
    {
      && Wired(-1)
      && (if Lands(attempts) then
            && channel != null && fresh(channel) && channel.fd == attempts[LastUsed(attempts)].fd
            && channel.KernelWatchesOut()
            && state == Connecting && connect && owned == |fates| - 1
          else
            && channel == old(channel) && (state == old(state) || state == Disconnected)
            && poller.members == old(poller.members)
            && poller.channels == old(poller.channels) && poller.kernel == old(poller.kernel))
    }

    /** start().  Called while connecting, it leaks the socket that channel_ owned exactly if a connect()
        that proceeds is reached. */
    method Start(attempts: seq<Attempt>)
      requires Wired(-1) && Unused(attempts)
      modifies this`state, this`connect, this`channel, this`fates, this`owned
      modifies poller`channels, poller`kernel, poller`ctlFailures, poller`members
      ensures Registers(attempts) && Ledger(-1, attempts) && connect
      ensures Leaks(old(fates), fates) <==> old(channel) != null && Lands(attempts)
      ensures old(state) != Connecting && old(channel) == null ==> Valid()
      ensures old(Valid()) && old(state) != Connecting ==> CallStep(StartOrRestart(attempts), old(Seen()), Seen())
      decreases |attempts|, 1
    {
      connect := true;
      ghost var before, was := fates, owned;
      Connect(attempts);
      assert old(channel) != null && Lands(attempts) ==> before[was] == Owned && fates[was] == Leaked;
    }

    method Restart(attempts: seq<Attempt>)
      requires Wired(-1) && Unused(attempts)
      modifies this`state, this`connect, this`channel, this`fates, this`owned
      modifies poller`channels, poller`kernel, poller`ctlFailures, poller`members
      ensures Registers(attempts) && Ledger(-1, attempts) && connect
      ensures old(channel) == null ==> Valid()
      ensures old(Valid()) && old(state) != Connecting ==> CallStep(StartOrRestart(attempts), old(Seen()), Seen())
    {
      state := Disconnected;
      connect := true;
      Connect(attempts);
    }

    method Connect(attempts: seq<Attempt>)
      requires Wired(-1) && Unused(attempts) && connect
      modifies this`state, this`connect, this`channel, this`fates, this`owned
      modifies poller`channels, poller`kernel, poller`ctlFailures, poller`members
      ensures Registers(attempts) && Ledger(-1, attempts) && connect
      decreases |attempts|, 0
    {
      if |attempts| == 0 {
        return;
      }
      var sockfd, errno := attempts[0].fd, attempts[0].errno;
      fates := fates + [InFlight];
      if Proceeds(errno) {
        ConnectingOn(sockfd, |fates| - 1);
      } else if Retries(errno) {
        Retry(attempts[1..], |fates| - 1);
      } else {
        Close(|fates| - 1);
      }
    }

    /** sockets::close on the socket in flight. */
    method Close(ghost t: nat)
      requires t < |fates| && fates[t] == InFlight
      modifies this`fates
      ensures fates == old(fates)[t := Closed]
    {
      fates := fates[t := Closed];
    }

    /** connecting(): whatever channel_ was, it is replaced. */
    method ConnectingOn(sockfd: int, ghost t: nat)
      requires Wired(t) && connect && sockfd !in poller.channels
      modifies this`state, this`channel, this`fates, this`owned
      modifies poller`channels, poller`kernel, poller`ctlFailures, poller`members
      ensures Wired(-1) && state == Connecting && channel != null && fresh(channel) && channel.fd == sockfd
      ensures channel.KernelWatchesOut()
      ensures owned == t
      ensures fates ==
        (if old(channel) == null then old(fates) else old(fates)[old(owned) := Leaked])[t := Owned]
    {
      state := Connecting;
      var c := new Channel(poller, sockfd);
      c.EnableWriting();
      fates := (if channel == null then fates else fates[owned := Leaked])[t := Owned];
      channel, owned := c, t;
    }

    method Retry(attempts: seq<Attempt>, ghost t: nat)
      requires Wired(t) && Unused(attempts)
      modifies this`state, this`connect, this`channel, this`fates, this`owned
      modifies poller`channels, poller`kernel, poller`ctlFailures, poller`members
      ensures var tried := if old(connect) then attempts else [];
        && Registers(tried) && Ledger(t, tried) && connect == old(connect)
        && (!Lands(tried) ==> state == Disconnected)
      decreases |attempts|, 2
    {
      Close(t);
      state := Disconnected;
      if connect {
        Start(attempts);
      }
    }

    /** The socket leaves the channel and is in flight again; its descriptor is registered nowhere. */
    method RemoveAndResetChannel() returns (sockfd: int)
      requires Wired(-1) && channel != null
      modifies this`channel, this`fates, channel
      modifies poller`channels, poller`kernel, poller`ctlFailures
      ensures channel == null && owned == old(owned) < |fates| && Wired(owned)
      ensures fates == old(fates)[owned := InFlight]
      ensures sockfd == old(channel.fd) && sockfd !in poller.channels && sockfd !in poller.kernel
      ensures poller.channels.Keys <= old(poller.channels.Keys)
    {
      channel.DisableAll();
      channel.Remove();
      sockfd := channel.fd;
      channel := null;
      fates := fates[owned := InFlight];
    }

    /** Nothing is created or handed off; a socket that was being connected is closed. */
    method Stop()
      requires Valid()
      modifies this`state, this`connect, this`channel, this`fates, this`owned
      modifies (if channel == null then {} else {channel})
      modifies poller`channels, poller`kernel, poller`ctlFailures, poller`members
      ensures Valid() && !connect && channel == null && state != Connecting
      ensures fates == if old(state) == Connecting then old(fates)[old(owned) := Closed] else old(fates)
      ensures old(state) != Connecting ==> state == old(state) && channel == old(channel) && unchanged(poller)
      ensures CallStep(StopCall, old(Seen()), Seen())
    {
      connect := false;
      if state == Connecting {
        state := Disconnected;
        var sockfd := RemoveAndResetChannel();
        Retry([], owned);
      }
    }

    /** The channel's write callback.  The socket that was connecting is handed off if it is connected,
        and then its descriptor is free to be registered anew; after an error or
        a self-connect it is closed and the connector tries again.  A connected socket is closed only if
        connect_ is off, which Valid() rules out. */
    method HandleWrite(err: bool, selfConnect: bool, attempts: seq<Attempt>) returns (handedOff: Option<int>)
      requires Linked() && UnusedThen(attempts)
      modifies this`state, this`connect, this`channel, this`fates, this`owned
      modifies (if channel == null then {} else {channel})
      modifies poller`channels, poller`kernel, poller`ctlFailures, poller`members
      ensures Linked() && (old(Valid()) ==> Valid())
      ensures old(state) != Connecting ==> handedOff == None && unchanged(this) && unchanged(poller)
      ensures handedOff.Some? <==> old(state) == Connecting && connect && !err && !selfConnect
      ensures handedOff.Some? ==> state == Connected && fates == old(fates)[old(owned) := HandedOff]
      ensures handedOff.Some? ==> handedOff.value == old(channel).fd
      ensures handedOff.Some? ==> handedOff.value !in poller.channels && handedOff.value !in poller.kernel
      ensures old(state) == Connecting && (err || selfConnect) ==>
        Ledger(old(owned), if connect then attempts else [])
      ensures old(state) == Connecting && !err && !selfConnect && !connect ==>
        fates == old(fates)[old(owned) := Closed] && state == Connected
      ensures connect == old(connect)
      ensures old(Valid()) ==> CallStep(Callback(err || selfConnect, attempts), old(Seen()), Seen())
    {
      handedOff := None;
      if state == Connecting {
        var sockfd := RemoveAndResetChannel();
        if err {
          Retry(attempts, owned);
        } else if selfConnect {
          Retry(attempts, owned);
        } else {
          state := Connected;
          if connect {
            fates := fates[owned := HandedOff];
            handedOff := Some(sockfd);
          } else {
            Close(owned);
          }
        }
      }
    }

    method HandleError(attempts: seq<Attempt>)
      requires Valid() && UnusedThen(attempts)
      modifies this`state, this`connect, this`channel, this`fates, this`owned
      modifies (if channel == null then {} else {channel})
      modifies poller`channels, poller`kernel, poller`ctlFailures, poller`members
      ensures Valid()
      ensures old(state) != Connecting ==> unchanged(this) && unchanged(poller)
      ensures old(state) == Connecting ==> Ledger(old(owned), attempts)
      ensures CallStep(Callback(true, attempts), old(Seen()), Seen())
    {
      if state == Connecting {
        var sockfd := RemoveAndResetChannel();
        Retry(attempts, owned);
      }
    }
  }
}
