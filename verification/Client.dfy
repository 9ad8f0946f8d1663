/**
 TcpClient (tcp_client.cpp): the receiving side of the hand-over of a connected socket, and the step
 back to the connector when the connection is gone.
 */
module Client {

  import opened Epoll
  import opened Connection
  import C = Connecting

  class TcpClient {
    const connector: C.Connector
    var connection: TcpConnection?
    var connect: bool      // is_connected()
    var retry: bool
    var nextConnId: nat

    ghost predicate Linked(conn: TcpConnection)
      reads this, connector, conn, conn.channel
    {
      conn.channel.poller == connector.poller && !conn.channel.index.New?
    }

    /** While there is a connection the connector is not connecting. */
    ghost predicate Valid()
      reads this, connector, connector.poller, connector.poller.members
      reads if connector.channel == null then {} else {connector.channel}
      reads if connection == null then {} else {connection, connection.inputBuffer, connection.outputBuffer}
      reads if connection == null then {} else {connection.outputBuffer.storage, connection.channel}
    {
      && connector.Valid()
      && (connection != null ==>
            && Linked(connection) && connector.state == C.Connected
            && connection.Valid())
    }

    constructor (poller: EPollPoller, retry: bool)
      requires poller.Valid()
      ensures Valid() && connector.poller == poller && connection == null && this.retry == retry
      ensures connector.state == C.Disconnected && connector.fates == []
    {
      connector := new C.Connector(poller);
      connection := null;
      connect, this.retry, nextConnId := true, retry, 1;
    }

    /** The new-connection callback: the descriptor that was handed over can be registered, and is. */
    method NewConnection(sockfd: int)
      requires Valid() && connection == null && connector.state == C.Connected
      requires sockfd !in connector.poller.channels
      modifies this`connection, this`connect, this`nextConnId
      modifies connector.poller`channels, connector.poller`kernel, connector.poller`ctlFailures
      modifies connector.poller`members
      ensures Valid() && connect && nextConnId == old(nextConnId) + 1
      ensures connection != null && fresh(connection) && fresh(connection.channel)
      ensures connection.state == Connected && connection.channel.fd == sockfd
      ensures connector.poller.kernel ==
        old(connector.poller.kernel)[sockfd := Interest(connection.channel, {In, Pri})]
      ensures connector.poller.ctlFailures == old(connector.poller.ctlFailures)
    {
      nextConnId := nextConnId + 1;
      var conn := new TcpConnection(connector.poller, sockfd);
      assert NONE_EVENT + {In, Pri} == {In, Pri};
      conn.ConnectEstablished();
      assert connector.Valid();
      connection := conn;
      connect := true;
    }

    /** connect(): only while there is neither a connection nor an attempt, else a socket may leak. */
    method Connect(attempts: seq<C.Attempt>)
      requires Valid() && connection == null && connector.state != C.Connecting && connector.Unused(attempts)
      modifies connector`state, connector`connect, connector`channel, connector`fates, connector`owned
      modifies connector.poller`channels, connector.poller`kernel, connector.poller`ctlFailures
      modifies connector.poller`members
      ensures Valid() && connector.Ledger(-1, attempts)
      ensures connector.state == C.Connecting <==> C.Lands(attempts)
      ensures C.Lands(attempts) ==> connector.channel != null && connector.channel.KernelWatchesOut()
    {
      connector.Start(attempts);
    }

    method Stop()
      requires Valid()
      modifies this`connect
      modifies connector`state, connector`connect, connector`channel, connector`fates, connector`owned
      modifies if connector.channel == null then {} else {connector.channel}
      modifies connector.poller`channels, connector.poller`kernel, connector.poller`ctlFailures
      modifies connector.poller`members
      ensures Valid() && !connect && !connector.connect && connector.state != C.Connecting
      ensures connector.fates == if old(connector.state) == C.Connecting
        then old(connector.fates)[old(connector.owned) := C.Closed] else old(connector.fates)
    {
      connect := false;
      connector.Stop();
    }

    /** The connector's channel becomes writable.  If its socket is connected, the socket goes over to a
        new connection: it is handed off once, and the kernel then watches it for that connection. */
    method ConnectorWritable(err: bool, selfConnect: bool, attempts: seq<C.Attempt>)
      requires Valid() && connector.UnusedThen(attempts)
      modifies this`connection, this`connect, this`nextConnId
      modifies connector`state, connector`connect, connector`channel, connector`fates, connector`owned
      modifies if connector.channel == null then {} else {connector.channel}
      modifies connector.poller`channels, connector.poller`kernel, connector.poller`ctlFailures
      modifies connector.poller`members
      ensures Valid()
      ensures old(connector.state) != C.Connecting ==>
        connection == old(connection) && connector.fates == old(connector.fates)
      ensures old(connector.state) == C.Connecting && (err || selfConnect) ==>
        && connection == null && connector.Ledger(old(connector.owned), attempts)
        && (connector.state == C.Connecting <==> C.Lands(attempts))
      ensures old(connector.state) == C.Connecting && !err && !selfConnect ==>
        && connector.fates == old(connector.fates)[old(connector.owned) := C.HandedOff]
        && connection != null && fresh(connection) && connection.channel.fd == old(connector.channel).fd
        && connection.channel.fd in connector.poller.kernel
        && connector.poller.kernel[connection.channel.fd] == Interest(connection.channel, {In, Pri})
    {
      var handedOff := connector.HandleWrite(err, selfConnect, attempts);
      if handedOff.Some? {
        NewConnection(handedOff.value);
      }
    }

    /** The close callback, at the end of handleClose() of the connection.  The connector is not
        connecting then, so a restart leaks nothing. */
    method RemoveConnection(attempts: seq<C.Attempt>)
      requires Valid() && connection != null && connector.Unused(attempts)
      modifies this`connection, this`connect
      modifies connection`state, connection`closed, connection`log
      modifies connection.channel`events, connection.channel`index
      modifies connector`state, connector`connect, connector`channel, connector`fates, connector`owned
      modifies connector.poller`channels, connector.poller`kernel, connector.poller`ctlFailures
      modifies connector.poller`members
      ensures Valid() && connection == null && !connect
      ensures old(connection).channel.index.New? && old(connection).closed
      ensures connector.Ledger(-1, if retry then attempts else [])
      ensures connector.state == C.Connecting <==> retry && C.Lands(attempts)
      ensures retry && C.Lands(attempts) ==> connector.channel != null && connector.channel.KernelWatchesOut()
    {
      var conn := connection;
      connection := null;
      conn.ConnectDestroyed();
      connect := false;
      if retry {
        connector.Restart(attempts);
      }
    }
  }
}
