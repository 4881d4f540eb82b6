/**
 * Alpaca device-API requests as the handlers see them, the parsers that read the client
 * identification out of them, and the replies: plain-text or JSON errors, and the ASCOM
 * Alpaca response envelope with its client and server transaction numbers.
 */
module Protocol {
  import opened Wrappers
  import opened GoStrings
  import opened Io

  /** The HTTP method: the device API routes are all GET or PUT. */
  datatype Verb = Get | Put

  /**
   * The URL query. Go keeps it in a map from key to values; the model lists each key with
   * its values in the order in which an iteration over that map visits them.
   */
  type Query = seq<(string, seq<string>)>

  /** What the handlers read from an HTTP request. */
  datatype Request = Request(
    verb: Verb,
    deviceIdParam: string,               // the `:device_id` path segment
    query: Query,
    form: map<string, seq<string>>,      // the url-encoded body fields
    remoteIp: string)

  /** Whether query entry `i` is the first whose key equals `target` ignoring case. */
  predicate FirstMatch(query: Query, target: string, i: int)
  {
    0 <= i < |query| && EqualFold(target, query[i].0) &&
    forall j :: 0 <= j < i ==> !EqualFold(target, query[j].0)
  }

  /** `getQuery`: the values of the first key equal to `target` ignoring case, comma-joined. */
  function GetQuery(query: Query, target: string): string
  {
    if query == [] then ""
    else if EqualFold(target, query[0].0) then Join(query[0].1, ",")
    else GetQuery(query[1..], target)
  }

  /** A key that matches ignoring case yields its values, joined with commas. */
  lemma {:induction false} GetQueryFirstMatch(query: Query, target: string, i: int)
    requires FirstMatch(query, target, i)
    ensures GetQuery(query, target) == Join(query[i].1, ",")
  {
    if i > 0 {
      assert !EqualFold(target, query[0].0);
      assert FirstMatch(query[1..], target, i - 1) by {
        forall j | 0 <= j < i - 1
          ensures !EqualFold(target, query[1..][j].0)
        {
          assert query[1..][j] == query[j + 1];
        }
      }
      GetQueryFirstMatch(query[1..], target, i - 1);
    }
  }

  /** No key matching ignoring case yields the empty string. */
  lemma {:induction false} GetQueryNoMatch(query: Query, target: string)
    requires forall i :: 0 <= i < |query| ==> !EqualFold(target, query[i].0)
    ensures GetQuery(query, target) == ""
  {
    if query != [] {
      assert !EqualFold(target, query[0].0);
      forall i | 0 <= i < |query[1..]|
        ensures !EqualFold(target, query[1..][i].0)
      {
        assert query[1..][i] == query[i + 1];
      }
      GetQueryNoMatch(query[1..], target);
    }
  }

  /** `c.PostForm(key)`: the first value of a body field, or "" when the field is absent. */
  function PostForm(form: map<string, seq<string>>, key: string): (r: string)
    ensures key !in form || form[key] == [] ==> r == ""
    ensures key in form && form[key] != [] ==> r == form[key][0]
  {
    if key in form && |form[key]| > 0 then form[key][0] else ""
  }

  /**
   * The integer check shared by the client-id parsers: a decimal `int` that is not
   * negative, or -1 for anything else.
   */
  function ParseId(text: string): (r: int)
    ensures -1 <= r <= MaxInt64
    ensures r >= 0 <==> Atoi(text).Some? && Atoi(text).value >= 0
    ensures r >= 0 ==> Atoi(text) == Some(r)
  {
    match Atoi(text)
    case None => -1
    case Some(v) => if v < 0 then -1 else v
  }

  /** Every id the parser accepts is read back from the decimal text Go would print for it. */
  lemma ParseIdItoa(n: int)
    requires 0 <= n <= MaxInt64
    ensures ParseId(Itoa(n)) == n
  {
    AtoiItoa(n);
  }

  /** The raw ClientID text: a query key in any letter case for GET, else "ClientID" then "clientid". */
  function ClientIdText(req: Request): string
  {
    if req.verb == Get then GetQuery(req.query, "ClientID")
    else if PostForm(req.form, "ClientID") != "" then PostForm(req.form, "ClientID")
    else PostForm(req.form, "clientid")
  }

  /** `getClientId`: the client number, or -1 when it is missing, not an integer or negative. */
  function GetClientId(req: Request): (cid: int)
    ensures -1 <= cid <= MaxInt64
    ensures cid >= 0 <==> Atoi(ClientIdText(req)).Some? && Atoi(ClientIdText(req)).value >= 0
    ensures cid >= 0 ==> Atoi(ClientIdText(req)) == Some(cid)
  {
    var text := ClientIdText(req);
    if text == "" then -1 else ParseId(text)
  }

  /**
   * The raw ClientTransactionID text. A PUT that carries neither spelling counts as
   * transaction "0".
   */
  function ClientTransactionIdText(req: Request): string
  {
    if req.verb == Get then GetQuery(req.query, "ClientTransactionID")
    else if PostForm(req.form, "ClientTransactionID") != "" then PostForm(req.form, "ClientTransactionID")
    else if PostForm(req.form, "clienttransactionid") != "" then PostForm(req.form, "clienttransactionid")
    else "0"
  }

  /** `getClientTransactionId`: the transaction number, or -1 when it is missing, not an integer or negative. */
  function GetClientTransactionId(req: Request): (ctid: int)
    ensures -1 <= ctid <= MaxInt64
    ensures ctid >= 0 <==> Atoi(ClientTransactionIdText(req)).Some? && Atoi(ClientTransactionIdText(req)).value >= 0
    ensures ctid >= 0 ==> Atoi(ClientTransactionIdText(req)) == Some(ctid)
  {
    var text := ClientTransactionIdText(req);
    if req.verb == Get && text == "" then -1 else ParseId(text)
  }

  /** A PUT with no transaction field at all is transaction 0, not an error. */
  lemma PutWithoutTransactionIdIsZero(req: Request)
    requires req.verb == Put
    requires PostForm(req.form, "ClientTransactionID") == "" && PostForm(req.form, "clienttransactionid") == ""
    ensures GetClientTransactionId(req) == 0
  {
    assert ClientTransactionIdText(req) == "0";
    assert AllDigits("0") && DigitsValue("0") == 0;
  }

  /** A GET with no transaction key in any letter case has no transaction number. */
  lemma GetWithoutTransactionIdIsMissing(req: Request)
    requires req.verb == Get
    requires forall i :: 0 <= i < |req.query| ==> !EqualFold("ClientTransactionID", req.query[i].0)
    ensures GetClientTransactionId(req) == -1
  {
    GetQueryNoMatch(req.query, "ClientTransactionID");
  }

  /** A GET whose first matching key, in whatever letter case, holds one decimal number yields that number. */
  lemma GetClientIdFromQuery(req: Request, i: int, n: int)
    requires req.verb == Get && 0 <= n <= MaxInt64
    requires FirstMatch(req.query, "ClientID", i) && req.query[i].1 == [Itoa(n)]
    ensures GetClientId(req) == n
  {
    GetQueryFirstMatch(req.query, "ClientID", i);
    ParseIdItoa(n);
  }

  /** `getFullClientId`: the remote address, a dash and the client number (-1 when invalid). */
  function GetFullClientId(req: Request): (id: string)
    ensures |id| > |req.remoteIp| + 1
    ensures id[..|req.remoteIp|] == req.remoteIp && id[|req.remoteIp|] == '-'
    ensures Atoi(id[|req.remoteIp| + 1..]) == Some(GetClientId(req))
  {
    var cid := GetClientId(req);
    AtoiItoa(cid);
    var id := req.remoteIp + "-" + Itoa(cid);
    assert id[|req.remoteIp| + 1..] == Itoa(cid);
    id
  }

  /** Requests from one address get one session key per client number, and different numbers get different keys. */
  lemma {:induction false} FullClientIdSeparatesClients(a: Request, b: Request)
    requires a.remoteIp == b.remoteIp
    ensures GetFullClientId(a) == GetFullClientId(b) <==> GetClientId(a) == GetClientId(b)
  {
    var ip := a.remoteIp;
    if GetFullClientId(a) == GetFullClientId(b) {
      assert GetFullClientId(a)[|ip| + 1..] == GetFullClientId(b)[|ip| + 1..];
    }
  }

  /** The ASCOM error number for a property or method the device does not implement. */
  const NotImplemented: int := 0x400

  const DeviceNotFound: string := "Device not found"
  const NotConnected: string := "Not connected"
  const InvalidRequest: string := "Invalid request"
  const UnknownOperation: string :=
    "The device did not understand which operation was being requested or insufficient information was given to complete the operation."

  /** A `DeviceState` entry: a property name and its current value. */
  datatype StateValue = StateBool(b: bool) | StateTime(t: Time)
  datatype DeviceStateEntry = DeviceStateEntry(name: string, value: StateValue)

  /** The `Value` member of an envelope; `NoValue` for the bare envelope of a PUT or an error. */
  datatype Value =
    | NoValue
    | BoolValue(b: bool)
    | StringValue(s: string)
    | StringListValue(items: seq<string>)
    | RealValue(x: real)
    | IntValue(i: int)
    | StateListValue(states: seq<DeviceStateEntry>)

  /** What goes back to the client. */
  datatype Response =
    | ErrorJson(code: int, error: string)           // an aborted request: {"Error": ...}
    | Text(code: int, body: string)                 // a plain-text reply
    | Envelope(clientTransactionId: uint32, serverTransactionId: uint32,
               errorNumber: int, errorMessage: string, value: Value)  // status 200, JSON

  /** `resp` is a 200 envelope with this error number, error message and value. */
  predicate EnvelopeOf(resp: Response, errorNumber: int, errorMessage: string, value: Value)
  {
    resp.Envelope? && resp.errorNumber == errorNumber && resp.errorMessage == errorMessage && resp.value == value
  }

  /** `resp` is a successful 200 envelope carrying `value`. */
  predicate Carries(resp: Response, value: Value)
  {
    EnvelopeOf(resp, 0, "", value)
  }

  /** The ClientTransactionID echoed in an envelope: -1 becomes 0, and Go's `uint32(ctid)` keeps the low 32 bits. */
  function EchoTransactionId(ctid: int): (r: uint32)
    ensures ctid < 0 ==> r == 0
    ensures 0 <= ctid < 0x1_0000_0000 ==> r == ctid
    ensures ctid >= 0 ==> r == ctid % 0x1_0000_0000
  {
    if ctid < 0 then 0 else ctid % 0x1_0000_0000
  }

  /** `ServerTransactionID += 1` on a `uint32`: one more, wrapping to 0 after 4294967295. */
  function NextTransactionId(stid: uint32): (r: uint32)
    ensures stid < 0xFFFF_FFFF ==> r == stid + 1
    ensures stid == 0xFFFF_FFFF ==> r == 0
  {
    (stid + 1) % 0x1_0000_0000
  }

  /** The counter after `k` envelopes. */
  function Advance(stid: uint32, k: nat): uint32
  {
    if k == 0 then stid else NextTransactionId(Advance(stid, k - 1))
  }

  /** The remainder of a number written as q whole rounds of 2^32 plus r. */
  lemma ModOfDecomposition(a: int, q: int, r: int)
    requires 0 <= r < 0x1_0000_0000 && a == q * 0x1_0000_0000 + r
    ensures a % 0x1_0000_0000 == r
  {
  }

  /** The counter after k envelopes, with the number of times it wrapped on the way. */
  lemma {:induction false} AdvanceQuotient(stid: uint32, k: nat) returns (q: nat)
    ensures stid + k == q * 0x1_0000_0000 + Advance(stid, k)
  {
    if k == 0 {
      q := 0;
    } else {
      q := AdvanceQuotient(stid, k - 1);
      if Advance(stid, k - 1) == 0xFFFF_FFFF {
        q := q + 1;
      }
    }
  }

  /** After k envelopes the counter has moved k steps on the 32-bit circle. */
  lemma AdvanceWraps(stid: uint32, k: nat)
    ensures Advance(stid, k) == (stid + k) % 0x1_0000_0000
  {
    var q := AdvanceQuotient(stid, k);
    ModOfDecomposition(stid + k, q, Advance(stid, k));
  }

  /** Below the wrap-around point, envelopes carry strictly increasing server transaction numbers. */
  lemma AdvanceIncreases(stid: uint32, j: nat, k: nat)
    requires j < k && stid + k < 0x1_0000_0000
    ensures Advance(stid, j) < Advance(stid, k)
  {
    AdvanceWraps(stid, j);
    AdvanceWraps(stid, k);
  }
}
