/**
 * The POP3 login scanner's `attempt_login` exchange, as its tests pin it down.
 *
 * One attempt connects; a connect that raises `Rex::ConnectionError`,
 * `Timeout::Error` or `EOFError` gives a `connection_error` result.  Otherwise
 * the scanner reads the greeting, and only while the server keeps answering
 * positively it writes `USER <public>\r\n`, reads, writes `PASS <private>\r\n`
 * and reads again.  The last line read is the proof; the attempt succeeds
 * when all three lines were positive and fails otherwise.
 *
 * The socket is the tests' scripted double: a connect behaviour, a queue of
 * reply lines and a record of what was written.  What counts as a positive
 * reply is a parameter, `positive`; the tests fix only that `+OK` is positive
 * and `+ERROR` is not.
 */
module Pop3 {
  import opened Wrappers

  datatype Credential = Credential(public: string, private: string, paired: bool)

  /** The closed set of outcomes of one attempt. */
  datatype Status = Success | Failed | ConnectionError

  datatype LoginResult = LoginResult(credential: Credential, status: Status, proof: Option<string>)

  /** The exceptions a connect may raise. */
  datatype ConnectFailure = RexConnectionError | TimeoutError | EofError

  datatype Connect = Connects | Raises(failure: ConnectFailure)

  /** The status a connect failure is reported as. */
  function FailureStatus(f: ConnectFailure): (s: Status)
    ensures s == ConnectionError
  {
    match f
    case RexConnectionError => ConnectionError
    case TimeoutError => ConnectionError
    case EofError => ConnectionError
  }

  /** The positive marker as the tests fix it: `+OK` is accepted and `+ERROR` is not. */
  predicate MarkerAgrees(positive: string -> bool) {
    positive("+OK") && !positive("+ERROR")
  }

  function UserLine(c: Credential): string {
    "USER " + c.public + "\r\n"
  }

  function PassLine(c: Credential): string {
    "PASS " + c.private + "\r\n"
  }

  /**
   * The `k`-th line a read returns from the queued replies: like the tests'
   * stub, the last queued reply is returned again once the others are used up.
   */
  function Reply(replies: seq<string>, k: nat): string
    requires |replies| > 0
  {
    if k < |replies| then replies[k] else replies[|replies| - 1]
  }

  /** The queue after one read. */
  function Advance(replies: seq<string>): (r: seq<string>)
    requires |replies| > 0
    ensures |r| > 0
    ensures forall k: nat :: Reply(r, k) == Reply(replies, k + 1)
  {
    if |replies| > 1 then replies[1..] else replies
  }

  /** The queue after `n` reads. */
  function AdvanceN(replies: seq<string>, n: nat): (r: seq<string>)
    requires |replies| > 0
    ensures |r| > 0
    ensures forall k: nat :: Reply(r, k) == Reply(replies, k + n)
  {
    if n == 0 then replies else AdvanceN(Advance(replies), n - 1)
  }

  /** What one attempt does: its result, the number of reads and the lines written. */
  datatype Trace = Trace(result: LoginResult, readCount: nat, writes: seq<string>)

  /** The exchange the scanner performs against a connect behaviour and the queued replies. */
  function Exchange(cred: Credential, connect: Connect, replies: seq<string>, positive: string -> bool): (r: Trace)
    requires |replies| > 0
    ensures r.result.credential == cred
    ensures r.readCount <= 3 && |r.writes| <= 2
    ensures r.writes == [UserLine(cred), PassLine(cred)][..|r.writes|]
    ensures connect.Raises? ==>
              r.result.status == ConnectionError && r.result.proof == None && r.readCount == 0 && r.writes == []
    ensures connect.Connects? ==>
              && r.result.status != ConnectionError
              && r.readCount >= 1 && |r.writes| == r.readCount - 1
              && r.result.proof == Some(Reply(replies, r.readCount - 1))
              && (forall k :: 0 <= k < r.readCount - 1 ==> positive(Reply(replies, k)))
    ensures connect.Connects? && r.readCount < 3 ==> !positive(Reply(replies, r.readCount - 1))
    ensures connect.Connects? && !positive(Reply(replies, 0)) ==> r.writes == [] && r.result.status == Failed
    ensures r.result.status == Success <==>
              connect.Connects? && positive(Reply(replies, 0)) && positive(Reply(replies, 1)) && positive(Reply(replies, 2))
  {
    match connect
    case Raises(f) => Trace(LoginResult(cred, FailureStatus(f), None), 0, [])
    case Connects =>
      var greeting := Reply(replies, 0);
      if !positive(greeting) then
        Trace(LoginResult(cred, Failed, Some(greeting)), 1, [])
      else
        var ack := Reply(replies, 1);
        if !positive(ack) then
          Trace(LoginResult(cred, Failed, Some(ack)), 2, [UserLine(cred)])
        else
          var last := Reply(replies, 2);
          Trace(LoginResult(cred, if positive(last) then Success else Failed, Some(last)), 3,
                [UserLine(cred), PassLine(cred)])
  }

  /** The tests' socket double, with the scanner's `connect` behaviour. */
  class ScriptedSocket {
    const connectBehaviour: Connect
    /** The replies still queued for `get_once`. */
    var replies: seq<string>
    var connects: nat
    var readCount: nat
    /** Every line passed to `put`, in order. */
    var writes: seq<string>

    ghost predicate Valid()
      reads this
    {
      |replies| > 0
    }

    constructor (connect: Connect, script: seq<string>)
      requires |script| > 0
      ensures Valid()
      ensures connectBehaviour == connect && replies == script
      ensures connects == 0 && readCount == 0 && writes == []
    {
      connectBehaviour := connect;
      replies := script;
      connects, readCount, writes := 0, 0, [];
    }

    /** `connect`: either opens the connection or raises one of the connect failures. */
    method Connect() returns (failure: Option<ConnectFailure>)
      modifies this`connects
      ensures connects == old(connects) + 1
      ensures failure.None? <==> connectBehaviour.Connects?
      ensures failure.Some? ==> failure.value == connectBehaviour.failure
    {
      connects := connects + 1;
      failure := match connectBehaviour
        case Connects => None
        case Raises(f) => Some(f);
    }

    /** `get_once`: the next queued reply. */
    method GetOnce() returns (line: string)
      requires Valid()
      modifies this`replies, this`readCount
      ensures Valid()
      ensures line == Reply(old(replies), 0)
      ensures replies == Advance(old(replies)) && readCount == old(readCount) + 1
    {
      line := replies[0];
      replies := Advance(replies);
      readCount := readCount + 1;
    }

    /** `put`: records the line written. */
    method Put(data: string)
      modifies this`writes
      ensures writes == old(writes) + [data]
    {
      writes := writes + [data];
    }
  }

  /** `attempt_login`: one connect, then the exchange; it always returns a result. */
  method AttemptLogin(sock: ScriptedSocket, cred: Credential, positive: string -> bool) returns (result: LoginResult)
    requires sock.Valid()
    modifies sock
    ensures sock.Valid()
    ensures var t := Exchange(cred, sock.connectBehaviour, old(sock.replies), positive);
            && result == t.result
            && sock.writes == old(sock.writes) + t.writes
            && sock.readCount == old(sock.readCount) + t.readCount
            && sock.replies == AdvanceN(old(sock.replies), t.readCount)
            && sock.connects == old(sock.connects) + 1
  {
    ghost var q0 := sock.replies;
    var failure := sock.Connect();
    if failure.Some? {
      return LoginResult(cred, FailureStatus(failure.value), None);
    }
    var proof := sock.GetOnce();
    ghost var q1 := sock.replies;
    assert AdvanceN(q0, 1) == AdvanceN(q1, 0);
    if !positive(proof) {
      return LoginResult(cred, Failed, Some(proof));
    }
    sock.Put(UserLine(cred));
    proof := sock.GetOnce();
    ghost var q2 := sock.replies;
    assert AdvanceN(q0, 2) == AdvanceN(q1, 1) == AdvanceN(q2, 0);
    if !positive(proof) {
      return LoginResult(cred, Failed, Some(proof));
    }
    sock.Put(PassLine(cred));
    proof := sock.GetOnce();
    assert AdvanceN(q0, 3) == AdvanceN(q1, 2) == AdvanceN(q2, 1) == AdvanceN(sock.replies, 0);
    var status := if positive(proof) then Success else Failed;
    result := LoginResult(cred, status, Some(proof));
  }

  /** Every connect failure the tests raise is reported as `connection_error`, with nothing written. */
  lemma ConnectFailuresAreConnectionErrors(cred: Credential, f: ConnectFailure, replies: seq<string>, positive: string -> bool)
    requires |replies| > 0
    ensures var t := Exchange(cred, Raises(f), replies, positive);
            t.result.status == ConnectionError && t.result.proof == None && t.writes == [] && t.readCount == 0
  {
  }

  /**
   * Whatever the credential, three positive replies make the whole exchange
   * happen: three reads, the USER line then the PASS line, and success.
   */
  lemma AllPositiveLogsIn(cred: Credential, replies: seq<string>, positive: string -> bool)
    requires |replies| > 0
    requires positive(Reply(replies, 0)) && positive(Reply(replies, 1)) && positive(Reply(replies, 2))
    ensures var t := Exchange(cred, Connects, replies, positive);
            && t.readCount == 3
            && t.writes == [UserLine(cred), PassLine(cred)]
            && t.result.status == Success
            && t.result.proof == Some(Reply(replies, 2))
  {
    var t := Exchange(cred, Connects, replies, positive);
    assert t.readCount == 3;
  }

  /** The credential the tests use: public `public`, an empty private, paired. */
  function PubBlank(): (c: Credential)
    ensures c.public == "public" && c.private == [] && c.paired
  {
    Credential("public", "", true)
  }

  /** An empty private part still gives a PASS line with its space: `PASS \r\n`. */
  lemma EmptyPrivatePassLine(c: Credential)
    requires c.private == []
    ensures PassLine(c) == "PASS \r\n"
  {
  }

  /** When every read answers `+OK`: three reads, `USER public` then `PASS `, and success. */
  lemma ServerReturnsOk(positive: string -> bool)
    requires MarkerAgrees(positive)
    ensures var t := Exchange(PubBlank(), Connects, ["+OK"], positive);
            && t.readCount == 3
            && t.writes == ["USER public\r\n", "PASS \r\n"]
            && t.result.status == Success
  {
    assert UserLine(PubBlank()) == "USER public\r\n";
    assert PassLine(PubBlank()) == "PASS \r\n";
  }

  /** When the server answers `+ERROR`: failure, the proof is `+ERROR`, and nothing is written. */
  lemma ServerReturnsSomethingElse(positive: string -> bool)
    requires MarkerAgrees(positive)
    ensures var t := Exchange(PubBlank(), Connects, ["+ERROR"], positive);
            && t.result.status == Failed
            && t.result.proof == Some("+ERROR")
            && t.writes == []
  {
  }
}
