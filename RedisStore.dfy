/**
 * The Redis server the engine talks to, reduced to what the engine uses:
 * string values, set values, MULTI/EXEC transactions and incremental SSCAN.
 * A server that cannot be reached fails every request (a JedisException).
 */
module RedisStore {
  import opened Wrappers

  /** The server's data: string values and set values. */
  datatype State = State(kv: map<string, string>, sets: map<string, set<string>>)

  /** The commands queued inside a MULTI/EXEC transaction. */
  datatype Command =
    | Set(key: string, value: string)
    | SAdd(key: string, member: string)
    | Del(key: string)
    | SRem(key: string, member: string)

  /** One SSCAN reply: the cursor to resume from and a batch of members. */
  datatype ScanReply = ScanReply(cursor: string, ids: seq<string>)

  /** The cursor that starts an SSCAN, and that the server returns once the scan has wrapped. */
  const ScanPointerStart: string := "0"

  /**
   * The server's SSCAN behaviour on (data, set key, cursor); None when the
   * call fails.  Which members a batch holds is the server's business.
   */
  type Scanner = (State, string, string) -> Option<ScanReply>

  /** GET: the string at `key`, if any. */
  function Lookup(s: State, key: string): Option<string>
  {
    if key in s.kv then Some(s.kv[key]) else None
  }

  /** SMEMBERS: the members of the set at `key`; a missing key is the empty set. */
  function Members(s: State, key: string): set<string>
  {
    if key in s.sets then s.sets[key] else {}
  }

  /** The effect of one command.  DEL removes a key whatever its type holds. */
  function Step(s: State, c: Command): State
  {
    match c
    case Set(k, v) => s.(kv := s.kv[k := v])
    case SAdd(k, m) => s.(sets := s.sets[k := Members(s, k) + {m}])
    case Del(k) => State(s.kv - {k}, s.sets - {k})
    case SRem(k, m) => if k in s.sets then s.(sets := s.sets[k := s.sets[k] - {m}]) else s
  }

  /** EXEC: the queued commands run in order, with nothing in between. */
  function Apply(s: State, tx: seq<Command>): State
    decreases |tx|
  {
    if tx == [] then s else Apply(Step(s, tx[0]), tx[1..])
  }

  /** A two-command transaction is its two steps, one after the other. */
  lemma ApplyPair(s: State, c1: Command, c2: Command)
    ensures Apply(s, [c1, c2]) == Step(Step(s, c1), c2)
  {
    var t := Step(Step(s, c1), c2);
    assert [c2][1..] == [];
    assert Apply(Step(s, c1), [c2]) == Apply(t, []) == t;
    assert [c1, c2][1..] == [c2];
  }

  /**
   * A Redis server, shared by every storage object that connects to it.
   * `reachable` is false while the network path is cut: nothing reaches the
   * server.  `slow` is true while replies arrive after the client's socket
   * timeout: the client gives up waiting for the reply to MULTI or to a
   * queued command, so EXEC is never sent, and reports a failure.
   */
  class Server {
    var state: State
    var reachable: bool
    var slow: bool

    /** The client gets its replies: the server is reachable and answers in time. */
    predicate Responsive()
      reads this
    {
      reachable && !slow
    }

    constructor ()
      ensures state == State(map[], map[]) && reachable && !slow
    {
      state := State(map[], map[]);
      reachable := true;
      slow := false;
    }

    /** Cuts or restores the network path to the server. */
    method SetReachable(b: bool)
      modifies this
      ensures reachable == b && slow == old(slow) && state == old(state)
    {
      reachable := b;
    }

    /** Adds or removes a reply latency beyond the client's socket timeout. */
    method SetSlow(b: bool)
      modifies this
      ensures slow == b && reachable == old(reachable) && state == old(state)
    {
      slow := b;
    }

    /**
     * MULTI ... EXEC: all of `tx` is applied when the server is responsive,
     * and nothing otherwise.  The client waits for the reply to MULTI and to
     * each queued command before it sends EXEC, so when replies are late EXEC
     * is never sent.
     */
    method Exec(tx: seq<Command>) returns (ok: bool)
      modifies this
      ensures ok == old(Responsive()) && reachable == old(reachable) && slow == old(slow)
      ensures state == if old(Responsive()) then Apply(old(state), tx) else old(state)
    {
      ok := reachable && !slow;
      if ok {
        state := Apply(state, tx);
      }
    }

    /** GET `key`. */
    method Get(key: string) returns (ok: bool, value: Option<string>)
      ensures ok == Responsive()
      ensures ok ==> value == Lookup(state, key)
    {
      ok := reachable && !slow;
      value := if ok then Lookup(state, key) else None;
    }

    /** SMEMBERS `key`. */
    method SMembers(key: string) returns (ok: bool, members: set<string>)
      ensures ok == Responsive()
      ensures ok ==> members == Members(state, key)
    {
      ok := reachable && !slow;
      members := if ok then Members(state, key) else {};
    }

    /** SSCAN `key` from `cursor`. */
    method SScan(key: string, cursor: string, scanner: Scanner) returns (reply: Option<ScanReply>)
      ensures reply == if Responsive() then scanner(state, key, cursor) else None
    {
      reply := if reachable && !slow then scanner(state, key, cursor) else None;
    }
  }
}
