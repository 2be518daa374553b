/** Length-prefixed frames over a byte stream that may deliver its bytes in pieces of any size. */
module Framing {
  import opened Base64
  import opened Wire
  import opened Wrappers

  const LIMIT: nat := 0x1_0000_0000

  /** struct.pack('>I', n) */
  function Pack(n: nat): (bs: seq<byte>)
    requires n < LIMIT
    ensures |bs| == 4
  {
    [(n / 0x100_0000) as byte, (n / 0x1_0000 % 0x100) as byte, (n / 0x100 % 0x100) as byte, (n % 0x100) as byte]
  }

  function Unpack(bs: seq<byte>): nat
    requires |bs| == 4
  {
    bs[0] as nat * 0x100_0000 + bs[1] as nat * 0x1_0000 + bs[2] as nat * 0x100 + bs[3] as nat
  }

  lemma UnpackPack(n: nat)
    requires n < LIMIT
    ensures Unpack(Pack(n)) == n
  {
    var a, b, c := n / 0x100, n / 0x1_0000, n / 0x100_0000;
    assert a / 0x100 == b && b / 0x100 == c;
    assert n == a * 0x100 + n % 0x100 && a == b * 0x100 + a % 0x100 && b == c * 0x100 + b % 0x100;
    assert c < 0x100;
  }

  /** The length is sent in network byte order: most significant byte first. */
  lemma BigEndian(n: nat)
    requires n < 0x1_0000_0000
    ensures var p := Pack(n);
      p[0] as nat * 16777216 + p[1] as nat * 65536 + p[2] as nat * 256 + p[3] as nat == n
    ensures Pack(0x01020304) == [1, 2, 3, 4]
  {
    UnpackPack(n);
  }

  /** What one recv_msg yields. */
  datatype Received = Message(value: Value) | Closed | TooLarge | Malformed

  /** json.loads followed by _decode. */
  function Open(data: seq<byte>, loads: seq<byte> -> Option<Value>): Received {
    match loads(data)
    case None => Malformed
    case Some(tree) => (match DecodeTree(tree) case Ok(v) => Message(v) case Err => Malformed)
  }

  /** The first message of a stream, and what is left behind it. */
  function Parse(stream: seq<byte>, loads: seq<byte> -> Option<Value>): (Received, seq<byte>) {
    if |stream| < 4 then (Closed, [])
    else
      var size := Unpack(stream[..4]);
      if size > MAX_MSG_BYTES then (TooLarge, stream[4..])
      else if |stream| < 4 + size then (Closed, [])
      else (Open(stream[4..4 + size], loads), stream[4 + size..])
  }

  /** One direction of a TCP connection: the bytes sent and not yet received. */
  class Connection {
    var stream: seq<byte>

    constructor ()
      ensures stream == []
    {
      stream := [];
    }

    /** socket.recv: at least one byte and at most `n`, as the network sees fit; nothing once the peer has closed. */
    method Recv(n: nat) returns (chunk: seq<byte>)
      requires n > 0
      modifies this
      ensures chunk + stream == old(stream) && |chunk| <= n && (chunk == [] <==> old(stream) == [])
    {
      if stream == [] { return []; }
      var k: nat :| 1 <= k <= n && k <= |stream|;
      chunk, stream := stream[..k], stream[k..];
    }

    /** Read on until `n` bytes are there; false if the peer closes first. */
    method RecvExactly(n: nat, most: nat) returns (ok: bool, data: seq<byte>)
      requires most > 0
      modifies this
      ensures ok <==> n <= |old(stream)|
      ensures ok ==> data == old(stream)[..n] && stream == old(stream)[n..]
      ensures !ok ==> stream == []
    {
      data := [];
      while |data| < n
        invariant |data| <= n && data + stream == old(stream)
        decreases n - |data|
      {
        var want := if n - |data| < most then n - |data| else most;
        var chunk := Recv(want);
        if chunk == [] { return false, data; }
        data := data + chunk;
      }
      ok := true;
    }

    /** recv_msg */
    method RecvMsg(loads: seq<byte> -> Option<Value>) returns (r: Received)
      modifies this
      ensures (r, stream) == Parse(old(stream), loads)
    {
      var ok, prefix := RecvExactly(4, 4);
      if !ok { return Closed; }
      var size := Unpack(prefix);
      if size > MAX_MSG_BYTES { return TooLarge; }
      ghost var rest := stream;
      var data;
      ok, data := RecvExactly(size, RECV_BUFFER);
      if !ok { return Closed; }
      assert rest[..size] == old(stream)[4..4 + size] && rest[size..] == old(stream)[4 + size..];
      r := Open(data, loads);
    }

    /** send_msg; false stands for the exception when the length does not fit the prefix. */
    method SendMsg(v: Value, dumps: Value -> seq<byte>) returns (ok: bool)
      modifies this
      ensures ok <==> Sendable(v, dumps)
      ensures stream == if ok then old(stream) + Frame(v, dumps) else old(stream)
    {
      var data := dumps(EncodeTree(v));
      if |data| >= LIMIT { return false; }
      stream := stream + (Pack(|data|) + data);
      ok := true;
    }

    /** A receiver that asks for `n` messages, one after the other. */
    method RecvAll(n: nat, loads: seq<byte> -> Option<Value>) returns (rs: seq<Received>)
      modifies this
      ensures (rs, stream) == ParseAll(old(stream), n, loads)
    {
      rs := [];
      assert [] + ParseAll(stream, n, loads).0 == ParseAll(stream, n, loads).0;
      for i := 0 to n
        invariant |rs| == i
        invariant ParseAll(old(stream), n, loads)
             == (rs + ParseAll(stream, n - i, loads).0, ParseAll(stream, n - i, loads).1)
      {
        var r := RecvMsg(loads);
        ghost var later := ParseAll(stream, n - i - 1, loads).0;
        assert rs + ([r] + later) == rs + [r] + later;
        rs := rs + [r];
      }
      assert rs + [] == rs;
    }
  }

  predicate Sendable(v: Value, dumps: Value -> seq<byte>) {
    |dumps(EncodeTree(v))| < LIMIT
  }

  function Frame(v: Value, dumps: Value -> seq<byte>): seq<byte>
    requires Sendable(v, dumps)
  {
    Pack(|dumps(EncodeTree(v))|) + dumps(EncodeTree(v))
  }

  function ParseAll(stream: seq<byte>, n: nat, loads: seq<byte> -> Option<Value>): (seq<Received>, seq<byte>)
    decreases n
  {
    if n == 0 then ([], stream)
    else
      var (r, rest) := Parse(stream, loads);
      var (rs, end) := ParseAll(rest, n - 1, loads);
      ([r] + rs, end)
  }

  /** JSON as this protocol uses it: what was dumped is loaded again. */
  predicate Loads(v: Value, dumps: Value -> seq<byte>, loads: seq<byte> -> Option<Value>) {
    loads(dumps(EncodeTree(v))) == Some(EncodeTree(v))
  }

  lemma ParseFrame(v: Value, rest: seq<byte>, dumps: Value -> seq<byte>, loads: seq<byte> -> Option<Value>)
    requires Sendable(v, dumps)
    ensures Parse(Frame(v, dumps) + rest, loads) ==
      if |dumps(EncodeTree(v))| > MAX_MSG_BYTES then (TooLarge, dumps(EncodeTree(v)) + rest)
      else (Open(dumps(EncodeTree(v)), loads), rest)
  {
    var data := dumps(EncodeTree(v));
    var stream := Frame(v, dumps) + rest;
    assert stream[..4] == Pack(|data|);
    UnpackPack(|data|);
    assert stream[4..] == data + rest;
    if |data| <= MAX_MSG_BYTES {
      assert stream[4..4 + |data|] == data;
      assert stream[4 + |data|..] == rest;
    }
  }

  /** A sent message is received as it was exactly when its text is within the cap and no dictionary in it looks like
      the byte marker. */
  lemma MessageRoundTrip(v: Value, rest: seq<byte>, dumps: Value -> seq<byte>, loads: seq<byte> -> Option<Value>)
    requires Sendable(v, dumps) && Loads(v, dumps, loads)
    ensures Parse(Frame(v, dumps) + rest, loads) == (Message(v), rest)
      <==> |dumps(EncodeTree(v))| <= 209715200 && Unambiguous(v)
  {
    ParseFrame(v, rest, dumps, loads);
    TreeRoundTrip(v);
  }

  predicate AllSendable(vs: seq<Value>, dumps: Value -> seq<byte>) {
    forall i :: 0 <= i < |vs| ==> Sendable(vs[i], dumps)
  }

  /** Everything that was sent, one frame behind the other. */
  function Sent(vs: seq<Value>, dumps: Value -> seq<byte>): seq<byte>
    requires AllSendable(vs, dumps)
  {
    if vs == [] then [] else Frame(vs[0], dumps) + Sent(vs[1..], dumps)
  }

  function Messages(vs: seq<Value>): (rs: seq<Received>)
    ensures |rs| == |vs| && forall i :: 0 <= i < |vs| ==> rs[i] == Message(vs[i])
  {
    seq(|vs|, i requires 0 <= i < |vs| => Message(vs[i]))
  }

  /** A message that the protocol can carry. */
  predicate Carried(v: Value, dumps: Value -> seq<byte>, loads: seq<byte> -> Option<Value>) {
    Sendable(v, dumps) && Loads(v, dumps, loads) && |dumps(EncodeTree(v))| <= MAX_MSG_BYTES && Unambiguous(v)
  }

  predicate AllCarried(vs: seq<Value>, dumps: Value -> seq<byte>, loads: seq<byte> -> Option<Value>) {
    forall i :: 0 <= i < |vs| ==> Carried(vs[i], dumps, loads)
  }

  lemma Assoc(a: seq<byte>, b: seq<byte>, c: seq<byte>)
    ensures a + b + c == a + (b + c)
  {
  }

  lemma ParseAllFirst(stream: seq<byte>, n: nat, loads: seq<byte> -> Option<Value>, r: Received, rest: seq<byte>,
                      rs: seq<Received>, end: seq<byte>)
    requires n > 0 && Parse(stream, loads) == (r, rest) && ParseAll(rest, n - 1, loads) == (rs, end)
    ensures ParseAll(stream, n, loads) == ([r] + rs, end)
  {
  }

  lemma MessagesFirst(vs: seq<Value>)
    requires vs != []
    ensures Messages(vs) == [Message(vs[0])] + Messages(vs[1..])
  {
  }

  lemma FirstCarried(vs: seq<Value>, dumps: Value -> seq<byte>, loads: seq<byte> -> Option<Value>)
    requires AllCarried(vs, dumps, loads) && vs != []
    ensures Carried(vs[0], dumps, loads) && AllCarried(vs[1..], dumps, loads) && AllSendable(vs, dumps)
    ensures AllSendable(vs[1..], dumps)
    ensures Sent(vs, dumps) == Frame(vs[0], dumps) + Sent(vs[1..], dumps)
  {
  }

  lemma CarriedArrives(v: Value, rest: seq<byte>, dumps: Value -> seq<byte>, loads: seq<byte> -> Option<Value>)
    requires Carried(v, dumps, loads)
    ensures Sendable(v, dumps) && Parse(Frame(v, dumps) + rest, loads) == (Message(v), rest)
  {
    MessageRoundTrip(v, rest, dumps, loads);
  }

  lemma NothingSent(rest: seq<byte>, dumps: Value -> seq<byte>, loads: seq<byte> -> Option<Value>)
    ensures ParseAll(Sent([], dumps) + rest, 0, loads) == (Messages([]), rest)
  {
    assert [] + rest == rest;
  }

  /** Any sequence of messages, delivered in any chunking, arrives in order and unchanged. */
  lemma {:induction false} AllArrive(vs: seq<Value>, rest: seq<byte>, dumps: Value -> seq<byte>,
                                     loads: seq<byte> -> Option<Value>)
    requires AllCarried(vs, dumps, loads)
    ensures AllSendable(vs, dumps) && ParseAll(Sent(vs, dumps) + rest, |vs|, loads) == (Messages(vs), rest)
  {
    if vs == [] {
      NothingSent(rest, dumps, loads);
    } else {
      hide *;
      FirstCarried(vs, dumps, loads);
      AllArrive(vs[1..], rest, dumps, loads);
      var more := Sent(vs[1..], dumps) + rest;
      CarriedArrives(vs[0], more, dumps, loads);
      Assoc(Frame(vs[0], dumps), Sent(vs[1..], dumps), rest);
      MessagesFirst(vs);
      ParseAllFirst(Sent(vs, dumps) + rest, |vs|, loads, Message(vs[0]), more, Messages(vs[1..]), rest);
    }
  }

  /** A sender that sends its messages one after the other. */
  method SendAll(c: Connection, vs: seq<Value>, dumps: Value -> seq<byte>)
    requires AllSendable(vs, dumps)
    modifies c
    ensures c.stream == old(c.stream) + Sent(vs, dumps)
  {
    assert vs[0..] == vs;
    for i := 0 to |vs|
      invariant c.stream + Sent(vs[i..], dumps) == old(c.stream) + Sent(vs, dumps)
    {
      assert vs[i..][0] == vs[i] && vs[i..][1..] == vs[i + 1..];
      hide Frame;
      Assoc(c.stream, Frame(vs[i], dumps), Sent(vs[i + 1..], dumps));
      var ok := c.SendMsg(vs[i], dumps);
    }
    assert c.stream + [] == c.stream;
  }

  /** Both ends together: whatever the network does with the bytes, the receiver gets the messages that were sent. */
  method Exchange(vs: seq<Value>, dumps: Value -> seq<byte>, loads: seq<byte> -> Option<Value>)
    returns (rs: seq<Received>)
    requires AllCarried(vs, dumps, loads)
    ensures rs == Messages(vs)
  {
    AllArrive(vs, [], dumps, loads);
    hide *;
    var c := new Connection();
    SendAll(c, vs, dumps);
    assert c.stream == Sent(vs, dumps) + [];
    rs := c.RecvAll(|vs|, loads);
  }
}
