/**
 * spring-jdbc's TransactionAwareDataSourceProxy and the invocation handler behind
 * each Connection proxy it hands out.
 *
 * The handler answers equals, hashCode, toString, unwrap, isWrapperFor, close and
 * isClosed itself and delegates every other call to a target Connection.  In fixed
 * mode that target is obtained once and kept; otherwise a Connection is obtained for
 * each call and released afterwards.  Obtaining and releasing connections
 * (DataSourceUtils) and the calls made on them are appended to the data source's log.
 */
module DataSourceProxy {
  import opened Wrappers

  datatype Connection = Connection(id: nat)

  /** The Connection methods the handler tells apart; every other method is `Other`. */
  datatype Call =
    | Equals(argumentProxy: Option<nat>)   // the argument's proxy identity, None for any other object
    | HashCode
    | ToString
    | Unwrap(isInstanceOfProxy: bool)       // whether the requested interface is implemented by the proxy
    | IsWrapperFor(isInstanceOfProxy: bool)
    | Close
    | IsClosed
    | GetTargetConnection
    | Other(name: string)

  /** What a call returns. */
  datatype Returned =
    | NullValue
    | BoolValue(b: bool)
    | IdentityHash(proxy: nat)
    | StringValue(s: string)
    | ProxyValue(proxy: nat)
    | ConnectionValue(c: Connection)
    | StatementValue(statement: nat)
    | ObjectValue(id: nat)

  datatype SqlError =
    | ConnectionHandleClosed
    | TargetFailure(id: nat)

  const HANDLE_CLOSED_MESSAGE := "Connection handle already closed"
  const TO_STRING_PREFIX := "Transaction-aware proxy for target Connection "

  /** The DataSourceUtils calls and the calls on target connections, in order. */
  datatype Event =
    | GetConnection(c: Connection)
    | ReleaseConnection(released: Option<Connection>)
    | Invoked(c: Connection, call: Call)
    | ApplyTransactionTimeout(statement: nat)

  /** shouldObtainFixedConnection: unless synchronization is active and reobtaining is requested. */
  function ShouldObtainFixedConnection(synchronizationActive: bool, reobtainTransactionalConnections: bool): (fixed: bool)
    ensures !fixed <==> synchronizationActive && reobtainTransactionalConnections
  {
    !synchronizationActive || !reobtainTransactionalConnections
  }

  // ---------------------------------------------------------------- one call, as a function

  /** The handler's fields, and how many connections the data source has handed out. */
  datatype HandlerState = HandlerState(target: Option<Connection>, closed: bool, issued: nat)

  /** The environment of one call: the target's own answer to a delegated call and its toString. */
  datatype Env = Env(
    proxy: nat,
    dataSourceName: string,
    fixed: bool,
    targetInvoke: (Connection, Call) -> Result<Returned, SqlError>,
    describe: Connection -> string)

  datatype Transition = Transition(result: Result<Returned, SqlError>, state: HandlerState, events: seq<Event>)

  /** Whether the handler answers the call itself. */
  predicate AnsweredByProxy(call: Call)
  {
    call.Equals? || call.HashCode? || call.ToString? || call.Close? || call.IsClosed?
    || (call.Unwrap? && call.isInstanceOfProxy) || (call.IsWrapperFor? && call.isInstanceOfProxy)
  }

  function Describe(s: HandlerState, env: Env): string
  {
    TO_STRING_PREFIX
    + if s.target.Some? then "[" + env.describe(s.target.value) + "]" else " from DataSource [" + env.dataSourceName + "]"
  }

  /** TransactionAwareInvocationHandler.invoke. */
  function Handle(s: HandlerState, call: Call, env: Env): Transition
  {
    match call
    case Equals(other) => Transition(Success(BoolValue(other == Some(env.proxy))), s, [])
    case HashCode => Transition(Success(IdentityHash(env.proxy)), s, [])
    case ToString => Transition(Success(StringValue(Describe(s, env))), s, [])
    case Close => Transition(Success(NullValue), s.(closed := true), [ReleaseConnection(s.target)])
    case IsClosed => Transition(Success(BoolValue(s.closed)), s, [])
    case Unwrap(inst) => if inst then Transition(Success(ProxyValue(env.proxy)), s, []) else Delegate(s, call, env)
    case IsWrapperFor(inst) => if inst then Transition(Success(BoolValue(true)), s, []) else Delegate(s, call, env)
    case _ => Delegate(s, call, env)
  }

  /** The delegating part of invoke: find the target, call it, release a non-fixed one. */
  function Delegate(s: HandlerState, call: Call, env: Env): Transition
  {
    if s.target.None? && s.closed then Transition(Failure(ConnectionHandleClosed), s, [])
    else
      // a fixed target is obtained once
      var s1 := if s.target.None? && env.fixed then s.(target := Some(Connection(s.issued)), issued := s.issued + 1) else s;
      var pre := if s.target.None? && env.fixed then [GetConnection(Connection(s.issued))] else [];
      // otherwise a connection for this call only
      var actual := if s1.target.Some? then s1.target.value else Connection(s1.issued);
      var s2 := if s1.target.Some? then s1 else s1.(issued := s1.issued + 1);
      var obtained := pre + (if s1.target.Some? then [] else [GetConnection(actual)]);
      if call.GetTargetConnection? then Transition(Success(ConnectionValue(actual)), s2, obtained)
      else
        var r := env.targetInvoke(actual, call);
        var timeout := if r.Success? && r.value.StatementValue? then [ApplyTransactionTimeout(r.value.statement)] else [];
        var release := if s2.target != Some(actual) then [ReleaseConnection(Some(actual))] else [];
        Transition(r, s2, obtained + [Invoked(actual, call)] + timeout + release)
  }

  // ---------------------------------------------------------------- properties of one call

  /** equals is proxy identity and hashCode the proxy's identity hash; neither touches the target. */
  lemma IdentityWithoutTarget(s: HandlerState, env: Env, other: Option<nat>)
    ensures Handle(s, Equals(other), env) == Transition(Success(BoolValue(other == Some(env.proxy))), s, [])
    ensures Handle(s, HashCode, env) == Transition(Success(IdentityHash(env.proxy)), s, [])
  {
  }

  /** close releases the current target, sets the flag and returns null; isClosed reports the flag. */
  lemma CloseThenIsClosed(s: HandlerState, env: Env)
    ensures var t := Handle(s, Close, env);
            t.result == Success(NullValue) && t.events == [ReleaseConnection(s.target)]
            && t.state == s.(closed := true)
            && Handle(t.state, IsClosed, env).result == Success(BoolValue(true))
  {
  }

  /**
   * After close, a delegated call fails with "Connection handle already closed"
   * exactly when no fixed target was obtained before.
   */
  lemma ClosedFailsOnlyWithoutTarget(s: HandlerState, call: Call, env: Env)
    requires s.closed && !AnsweredByProxy(call)
    ensures s.target.None? ==> Handle(s, call, env) == Transition(Failure(ConnectionHandleClosed), s, [])
    ensures s.target.Some? && !call.GetTargetConnection? ==> Handle(s, call, env).result == env.targetInvoke(s.target.value, call)
  {
  }

  /** In fixed mode an existing target is reused: nothing is obtained or released. */
  lemma FixedTargetReused(s: HandlerState, call: Call, env: Env)
    requires s.target.Some? && !AnsweredByProxy(call)
    ensures var t := Handle(s, call, env);
            t.state == s
            && t.events == if call.GetTargetConnection? then []
                           else [Invoked(s.target.value, call)]
                                + (if t.result.Success? && t.result.value.StatementValue?
                                   then [ApplyTransactionTimeout(t.result.value.statement)] else [])
  {
  }

  /**
   * Without a fixed target, an open handler obtains a fresh connection for each
   * delegated call and releases it after the call, whatever the call's outcome.
   */
  lemma NonFixedObtainsAndReleases(s: HandlerState, call: Call, env: Env)
    requires !env.fixed && s.target.None? && !s.closed && !AnsweredByProxy(call) && !call.GetTargetConnection?
    ensures var t := Handle(s, call, env);
            var c := Connection(s.issued);
            t.result == env.targetInvoke(c, call)
            && t.events[0] == GetConnection(c) && t.events[1] == Invoked(c, call)
            && t.events[|t.events| - 1] == ReleaseConnection(Some(c))
            && t.state == s.(issued := s.issued + 1)
  {
  }

  /** getTargetConnection hands out the actual connection and calls nothing on it. */
  lemma TargetConnectionNotInvoked(s: HandlerState, env: Env)
    requires !(s.target.None? && s.closed)
    ensures var t := Handle(s, GetTargetConnection, env);
            t.result.Success? && t.result.value.ConnectionValue?
            && (s.target.Some? ==> t.result.value.c == s.target.value)
            && forall i :: 0 <= i < |t.events| ==> t.events[i].GetConnection?
  {
  }

  // ---------------------------------------------------------------- sequences of calls

  function CountGets(events: seq<Event>): nat
  {
    if events == [] then 0 else (if events[0].GetConnection? then 1 else 0) + CountGets(events[1..])
  }

  lemma {:induction false} CountGetsAppend(a: seq<Event>, b: seq<Event>)
    ensures CountGets(a + b) == CountGets(a) + CountGets(b)
  {
    if a == [] {
      assert a + b == b;
    } else {
      assert (a + b)[1..] == a[1..] + b;
      CountGetsAppend(a[1..], b);
    }
  }

  /** The calls made on one proxy, one after another. */
  function Replay(s: HandlerState, calls: seq<Call>, env: Env): (HandlerState, seq<Event>)
    decreases |calls|
  {
    if calls == [] then (s, [])
    else
      var t := Handle(s, calls[0], env);
      var rest := Replay(t.state, calls[1..], env);
      (rest.0, t.events + rest.1)
  }

  /** One call in fixed mode obtains at most one connection, and only while there is no target; the target then stays. */
  lemma FixedStep(s: HandlerState, call: Call, env: Env)
    requires env.fixed
    ensures var t := Handle(s, call, env);
            CountGets(t.events) <= (if s.target.None? then 1 else 0)
            && (s.target.Some? ==> t.state.target == s.target)
            && (CountGets(t.events) == 1 ==> t.state.target.Some?)
  {
    var t := Handle(s, call, env);
    if AnsweredByProxy(call) {
      assert t.events == [] || t.events == [ReleaseConnection(s.target)];
      assert CountGets(t.events) == 0;
    } else {
      assert t == Delegate(s, call, env);
      if !(s.target.None? && s.closed) {
        FixedDelegate(s, call, env);
      }
    }
  }

  /** A delegated call in fixed mode obtains the target if there is none yet, and nothing else. */
  lemma FixedDelegate(s: HandlerState, call: Call, env: Env)
    requires env.fixed && !(s.target.None? && s.closed)
    ensures var t := Delegate(s, call, env);
            CountGets(t.events) == (if s.target.None? then 1 else 0)
            && t.state.target.Some? && (s.target.Some? ==> t.state.target == s.target)
  {
    var t := Delegate(s, call, env);
    var pre := if s.target.None? then [GetConnection(Connection(s.issued))] else [];
    var tail := t.events[|pre|..];
    assert t.events == pre + tail;
    assert forall i :: 0 <= i < |tail| ==> !tail[i].GetConnection?;
    NoGets(tail);
    CountGetsAppend(pre, tail);
  }

  lemma {:induction false} NoGets(events: seq<Event>)
    requires forall i :: 0 <= i < |events| ==> !events[i].GetConnection?
    ensures CountGets(events) == 0
  {
    if events != [] {
      NoGets(events[1..]);
    }
  }

  /** In fixed mode a proxy obtains its target connection at most once, however many calls it serves. */
  lemma {:induction false} FixedObtainedAtMostOnce(s: HandlerState, calls: seq<Call>, env: Env)
    requires env.fixed
    ensures CountGets(Replay(s, calls, env).1) <= (if s.target.None? then 1 else 0)
    ensures s.target.Some? ==> Replay(s, calls, env).0.target == s.target
    decreases |calls|
  {
    if calls != [] {
      var t := Handle(s, calls[0], env);
      FixedStep(s, calls[0], env);
      FixedObtainedAtMostOnce(t.state, calls[1..], env);
      CountGetsAppend(t.events, Replay(t.state, calls[1..], env).1);
    }
  }

  // ---------------------------------------------------------------- the objects

  /** The target DataSource: hands out connections and records what happens to them. */
  class DataSource {
    const name: string
    var issued: nat
    var log: seq<Event>

    constructor (name: string)
      ensures this.name == name && issued == 0 && log == []
    {
      this.name := name;
      issued := 0;
      log := [];
    }

    /** DataSourceUtils.doGetConnection: a fresh connection. */
    method DoGetConnection() returns (c: Connection)
      modifies this
      ensures c == Connection(old(issued)) && issued == old(issued) + 1 && log == old(log) + [GetConnection(c)]
    {
      c := Connection(issued);
      issued := issued + 1;
      log := log + [GetConnection(c)];
    }

    method DoReleaseConnection(c: Option<Connection>)
      modifies this`log
      ensures log == old(log) + [ReleaseConnection(c)]
    {
      log := log + [ReleaseConnection(c)];
    }
  }

  class TransactionAwareDataSourceProxy {
    var targetDataSource: DataSource?
    var reobtainTransactionalConnections: bool

    constructor (targetDataSource: DataSource?)
      ensures this.targetDataSource == targetDataSource && !reobtainTransactionalConnections
    {
      this.targetDataSource := targetDataSource;
      reobtainTransactionalConnections := false;
    }

    method SetReobtainTransactionalConnections(b: bool)
      modifies this`reobtainTransactionalConnections
      ensures reobtainTransactionalConnections == b
    {
      reobtainTransactionalConnections := b;
    }

    /** getConnection: a fresh proxy handler over the target DataSource, which must be set. */
    method GetConnection(proxy: nat) returns (r: Option<TransactionAwareInvocationHandler>)
      ensures r.None? <==> targetDataSource == null
      ensures r.Some? ==> fresh(r.value) && r.value.owner == this && r.value.proxy == proxy
                          && r.value.targetDataSource == targetDataSource
                          && r.value.target.None? && !r.value.closed
    {
      if targetDataSource == null {
        return None;
      }
      var handler := new TransactionAwareInvocationHandler(this, targetDataSource, proxy);
      r := Some(handler);
    }
  }

  class TransactionAwareInvocationHandler {
    const owner: TransactionAwareDataSourceProxy
    const targetDataSource: DataSource
    const proxy: nat
    var target: Option<Connection>
    var closed: bool

    constructor (owner: TransactionAwareDataSourceProxy, targetDataSource: DataSource, proxy: nat)
      ensures this.owner == owner && this.targetDataSource == targetDataSource && this.proxy == proxy
      ensures target.None? && !closed
    {
      this.owner := owner;
      this.targetDataSource := targetDataSource;
      this.proxy := proxy;
      target := None;
      closed := false;
    }

    function State(): HandlerState
      reads this, targetDataSource
    {
      HandlerState(target, closed, targetDataSource.issued)
    }

    /**
     * invoke: the fields, the data source and its log move as `Handle` says, with
     * fixed mode decided by the owner's setting and the synchronization status.
     */
    method Invoke(call: Call, synchronizationActive: bool, targetInvoke: (Connection, Call) -> Result<Returned, SqlError>,
                  describe: Connection -> string)
      returns (r: Result<Returned, SqlError>)
      modifies this, targetDataSource
      ensures var env := Env(proxy, targetDataSource.name,
                             ShouldObtainFixedConnection(synchronizationActive, owner.reobtainTransactionalConnections),
                             targetInvoke, describe);
              var t := Handle(old(State()), call, env);
              r == t.result && State() == t.state && targetDataSource.log == old(targetDataSource.log) + t.events
    {
      var env := Env(proxy, targetDataSource.name,
                     ShouldObtainFixedConnection(synchronizationActive, owner.reobtainTransactionalConnections),
                     targetInvoke, describe);
      match call {
        case Equals(other) => return Success(BoolValue(other == Some(proxy)));
        case HashCode => return Success(IdentityHash(proxy));
        case ToString => return Success(StringValue(Describe(State(), env)));
        case Close =>
          targetDataSource.DoReleaseConnection(target);
          closed := true;
          return Success(NullValue);
        case IsClosed => return Success(BoolValue(closed));
        case Unwrap(inst) =>
          if inst {
            return Success(ProxyValue(proxy));
          }
          r := DelegateCall(call, env);
        case IsWrapperFor(inst) =>
          if inst {
            return Success(BoolValue(true));
          }
          r := DelegateCall(call, env);
        case GetTargetConnection => r := DelegateCall(call, env);
        case Other(_) => r := DelegateCall(call, env);
      }
    }

    /** The delegating part of invoke. */
    method DelegateCall(call: Call, env: Env) returns (r: Result<Returned, SqlError>)
      requires env.proxy == proxy && env.dataSourceName == targetDataSource.name
      modifies this, targetDataSource
      ensures var t := Delegate(old(State()), call, env);
              r == t.result && State() == t.state && targetDataSource.log == old(targetDataSource.log) + t.events
    {
      if target.None? && closed {
        return Failure(ConnectionHandleClosed);
      }
      var actualTarget := ActualTarget(env.fixed);
      if call.GetTargetConnection? {
        return Success(ConnectionValue(actualTarget));
      }
      // the target's method; a Statement it returns gets the transaction timeout
      r := env.targetInvoke(actualTarget, call);
      targetDataSource.log := targetDataSource.log + [Invoked(actualTarget, call)];
      if r.Success? && r.value.StatementValue? {
        targetDataSource.log := targetDataSource.log + [ApplyTransactionTimeout(r.value.statement)];
      }
      // finally: a connection obtained for this call only is released
      if target != Some(actualTarget) {
        targetDataSource.DoReleaseConnection(Some(actualTarget));
      }
    }

    /** The connection a delegated call goes to: the fixed target, obtained first if need be, or a fresh one. */
    method ActualTarget(fixed: bool) returns (actual: Connection)
      requires !(target.None? && closed)
      modifies this`target, targetDataSource
      ensures var s := old(State());
              var obtainFixed := s.target.None? && fixed;
              target == (if obtainFixed then Some(Connection(s.issued)) else s.target)
              && actual == (if target.Some? then target.value else Connection(s.issued))
              && targetDataSource.issued == (if target.Some? && !obtainFixed then s.issued else s.issued + 1)
              && targetDataSource.log == old(targetDataSource.log)
                 + (if target.Some? && !obtainFixed then [] else [GetConnection(Connection(s.issued))])
    {
      if target.None? && fixed {
        var c := targetDataSource.DoGetConnection();
        target := Some(c);
      }
      if target.Some? {
        actual := target.value;
      } else {
        actual := targetDataSource.DoGetConnection();
      }
    }
  }
}
