/** The HTTP proxy: what it forwards, what it records of a response, and what it replays. */
module HttpProxy {
  import opened Messages
  import opened Rules
  import opened Caching
  import opened BodyReader

  /** One call of a backend on its response writer. */
  datatype Event = Header(code: nat) | Data(bytes: seq<Byte>)

  /** Header codes that do not commit the response: those below 200, but for 101. */
  predicate Informational(code: nat) {
    code < 200 && code != 101
  }

  /** A response with such a status has no body; the server drops what is written to it. */
  predicate Bodiless(status: nat) {
    status == 101 || status == 204 || status == 304
  }

  /** A response as the server's own writer sends it, and as the wrapper records it. */
  datatype Response = Response(status: nat, bytes: seq<Byte>)
  {
    /** The server takes the first status that is final, and no body where none is allowed. */
    function Sent(e: Event): Response {
      match e
      case Header(code) => if status == 0 && !Informational(code) then this.(status := code) else this
      case Data(more) => Response(if status == 0 then 200 else status, if Bodiless(status) then bytes else bytes + more)
    }

    /** The wrapper takes the last status. */
    function Recorded(e: Event): Response {
      match e
      case Header(code) => this.(status := code)
      case Data(more) => Response(if status == 0 then 200 else status, bytes + more)
    }

    /** What a client gets of it. */
    function Shown(): Response {
      if Bodiless(status) then this.(bytes := []) else this
    }

    function SentAll(events: seq<Event>): Response {
      if events == [] then this else SentAll(events[..|events| - 1]).Sent(events[|events| - 1])
    }

    function RecordedAll(events: seq<Event>): Response {
      if events == [] then this else RecordedAll(events[..|events| - 1]).Recorded(events[|events| - 1])
    }
  }

  const Nothing := Response(0, [])

  /** What the client has read once the handler has returned. */
  function Seen(w: Response): Response {
    if w.status == 0 then Response(200, w.bytes) else w
  }

  /** Informational headers, one final header, then the body. */
  ghost predicate WellFormed(events: seq<Event>, at: nat) {
    && at < |events| && events[at].Header? && !Informational(events[at].code)
    && (forall i :: 0 <= i < at ==> events[i].Header? && Informational(events[i].code))
    && (forall i :: at < i < |events| ==> events[i].Data?)
  }

  /** For a well-formed response the wrapper records what the client reads. */
  lemma {:induction false} RecordsWhatIsSent(events: seq<Event>, at: nat)
    requires WellFormed(events, at)
    ensures Nothing.SentAll(events) == Nothing.RecordedAll(events).Shown()
    ensures Nothing.SentAll(events).status == events[at].code
  {
    var last := |events| - 1;
    if at < last {
      RecordsWhatIsSent(events[..last], at);
    } else {
      NothingSentYet(events[..last]);
    }
  }

  lemma {:induction false} NothingSentYet(events: seq<Event>)
    requires forall i :: 0 <= i < |events| ==> events[i].Header? && Informational(events[i].code)
    ensures Nothing.SentAll(events) == Nothing && Nothing.RecordedAll(events).bytes == []
  {
    if events != [] {
      NothingSentYet(events[..|events| - 1]);
    }
  }

  /** The bytes are recorded as sent whatever the backend does, but for those that the server drops. */
  lemma {:induction false} BytesAgree(events: seq<Event>)
    ensures
      var sent := Nothing.SentAll(events);
      var record := Nothing.RecordedAll(events);
      && sent.bytes == (if Bodiless(sent.status) then [] else record.bytes)
      && (sent.status == 0 ==> record.bytes == [])
  {
    if events != [] {
      BytesAgree(events[..|events| - 1]);
    }
  }

  class ResponseWriter {
    var sent: Response

    constructor ()
      ensures sent == Nothing
    {
      sent := Nothing;
    }

    method WriteHeader(code: nat)
      modifies this
      ensures sent == old(sent).Sent(Header(code))
      ensures sent == if old(sent).status == 0 && (code == 101 || code >= 200) then Response(code, old(sent).bytes)
                      else old(sent)
    {
      if sent.status == 0 && !Informational(code) {
        sent := sent.(status := code);
      }
    }

    method Write(bytes: seq<Byte>)
      modifies this
      ensures sent == old(sent).Sent(Data(bytes))
      ensures sent.status == if old(sent).status == 0 then 200 else old(sent).status
      ensures sent.bytes == if sent.status in {101, 204, 304} then old(sent).bytes else old(sent).bytes + bytes
    {
      if sent.status == 0 {
        sent := sent.(status := 200);
      }
      if !Bodiless(sent.status) {
        sent := sent.(bytes := sent.bytes + bytes);
      }
    }
  }

  class ResponseWriterWrapper {
    const writer: ResponseWriter
    var buf: seq<Byte>
    var statusCode: nat

    ghost function Record(): Response
      reads this
    {
      Response(statusCode, buf)
    }

    constructor (writer: ResponseWriter)
      ensures this.writer == writer && Record() == Nothing
    {
      this.writer, buf, statusCode := writer, [], 0;
    }

    method Write(bytes: seq<Byte>)
      modifies this, writer
      ensures Record() == old(Record()).Recorded(Data(bytes))
      ensures writer.sent == old(writer.sent).Sent(Data(bytes))
      ensures statusCode == if old(statusCode) == 0 then 200 else old(statusCode)
      ensures buf == old(buf) + bytes
    {
      if statusCode == 0 {
        statusCode := 200;
      }
      buf := buf + bytes;
      writer.Write(bytes);
    }

    method WriteHeader(code: nat)
      modifies this, writer
      ensures Record() == old(Record()).Recorded(Header(code))
      ensures writer.sent == old(writer.sent).Sent(Header(code))
      ensures statusCode == code && buf == old(buf)
    {
      statusCode := code;
      writer.WriteHeader(code);
    }

    /** Takes the recorded bytes out. */
    method GetWrittenBytes() returns (bytes: seq<Byte>)
      modifies this
      ensures bytes == old(buf) && Record() == Response(old(statusCode), [])
    {
      bytes := buf;
      buf := [];
    }
  }

  /** The request line of a request; its body is in the reader. */
  datatype Request = Request(verb: seq<Byte>, url: seq<Byte>)

  /** What the backend does with its response writer for a request and the body that reaches it. */
  type Backend = (Request, seq<Byte>) -> seq<Event>

  type Hash = seq<Byte> -> string

  /** The text that is hashed into the cache key. */
  function Text(r: Request, body: seq<Byte>): seq<Byte> {
    r.verb + r.url + body
  }

  /** What writing a cached response sends. */
  function Replay(res: Response): Response {
    Nothing.Sent(Header(res.status)).Sent(Data(res.bytes))
  }

  predicate CacheOn(config: Option<RuleCache>) {
    config.Some? && config.value.enable
  }

  function StoredResponse(cache: map<string, Response>, config: Option<RuleCache>, key: string, record: Response)
    : map<string, Response>
  {
    if CacheOn(config) && record.status > 0 && (record.status == 200 || config.value.cacheError)
    then cache[key := record] else cache
  }

  /** What a client reads without a cache. */
  function Direct(backend: Backend, r: Request, body: seq<Byte>): Response {
    Seen(Nothing.SentAll(backend(r, body)))
  }

  /** A use of the proxy on a request that a rule allows; `fails` if a write to the cache would. */
  datatype Use = Use(r: Request, body: seq<Byte>, config: Option<RuleCache>, fault: Fault, fails: bool)

  function KeyOf(hash: Hash, u: Use): string {
    hash(Text(u.r, u.body))
  }

  predicate IsHit(hash: Hash, cache: map<string, Response>, u: Use) {
    CacheOn(u.config) && KeyOf(hash, u) in cache && !u.fault.Miss?
  }

  function ReadBy(hash: Hash, backend: Backend, cache: map<string, Response>, u: Use): Response {
    if !IsHit(hash, cache, u) then Direct(backend, u.r, u.body)
    else Seen(if u.fault.Vanish? then Nothing else Replay(cache[KeyOf(hash, u)]))
  }

  function AfterUse(hash: Hash, backend: Backend, cache: map<string, Response>, u: Use): map<string, Response> {
    if IsHit(hash, cache, u) || u.fails then cache
    else StoredResponse(cache, u.config, KeyOf(hash, u), Nothing.RecordedAll(backend(u.r, u.body)))
  }

  class HttpProxy {
    const hash: Hash
    const backend: Backend
    var cache: map<string, Response>

    constructor (hash: Hash, backend: Backend)
      ensures this.hash == hash && this.backend == backend && cache == map[]
    {
      this.hash, this.backend, cache := hash, backend, map[];
    }

    /** The reverse proxy: the backend gets what is left of the body and writes to the wrapper. */
    method Forward(ww: ResponseWriterWrapper, r: Request, body: ReusableReader, sizes: nat -> nat)
      returns (forwarded: seq<Byte>)
      requires forall i :: sizes(i) > 0
      requires ww.Record() == Nothing && ww.writer.sent == Nothing
      modifies ww, ww.writer, body
      ensures forwarded == old(body.readBuf) && body.Model() == Buffers(old(body.Model()).Whole(), [])
      ensures ww.Record() == Nothing.RecordedAll(backend(r, forwarded))
      ensures ww.writer.sent == Nothing.SentAll(backend(r, forwarded))
    {
      forwarded := body.ReadAll(sizes);
      var events := backend(r, forwarded);
      assert events[..0] == [];
      for i := 0 to |events|
        invariant ww.Record() == Nothing.RecordedAll(events[..i])
        invariant ww.writer.sent == Nothing.SentAll(events[..i])
        invariant body.Model() == Buffers(old(body.Model()).Whole(), [])
      {
        assert events[..i + 1][..i] == events[..i];
        match events[i]
        case Header(code) => ww.WriteHeader(code);
        case Data(bytes) => ww.Write(bytes);
      }
      assert events[..|events|] == events;
    }

    method GetRequestHash(r: Request, body: ReusableReader, sizes: nat -> nat) returns (key: string)
      requires forall i :: sizes(i) > 0
      modifies body
      ensures key == hash(Text(r, old(body.readBuf)))
      ensures body.Model() == Buffers(old(body.Model()).Whole(), [])
    {
      var bytes := body.ReadAll(sizes);
      key := hash(Text(r, bytes));
    }

    /** Hashing the request first does not change what is forwarded. */
    method Allow(w: ResponseWriter, r: Request, body: ReusableReader, config: Option<RuleCache>, fault: Fault,
                 fails: bool,
                 sizes: nat -> nat)
      returns (forwarded: Option<seq<Byte>>)
      requires forall i :: sizes(i) > 0
      requires w.sent == Nothing && body.backBuf == []
      modifies this, w, body
      ensures body.Model() == old(body.Model())
      ensures
        var u := Use(r, old(body.readBuf), config, fault, fails);
        && forwarded == (if IsHit(hash, old(cache), u) then None else Some(u.body))
        && Seen(w.sent) == ReadBy(hash, backend, old(cache), u)
        && cache == AfterUse(hash, backend, old(cache), u)
    {
      assert [] + body.readBuf == body.readBuf;
      if config.Some? && config.value.enable {
        var key := GetRequestHash(r, body, sizes);
        if key in cache && !fault.Miss? {
          CacheHit(w, key, fault);
          forwarded := None;
        } else {
          var sent := CacheMiss(w, r, body, key, config.value, fails, sizes);
          forwarded := Some(sent);
        }
        return;
      }
      var ww := new ResponseWriterWrapper(w);
      var sent := Forward(ww, r, body, sizes);
      forwarded := Some(sent);
    }

    /** When the entry has vanished nothing is written at all. */
    method CacheHit(w: ResponseWriter, key: string, fault: Fault)
      requires key in cache && w.sent == Nothing
      modifies w
      ensures w.sent == if fault.Vanish? then Nothing else Replay(cache[key])
    {
      if fault.Vanish? {
        return;
      }
      w.WriteHeader(cache[key].status);
      w.Write(cache[key].bytes);
    }

    method CacheMiss(w: ResponseWriter, r: Request, body: ReusableReader, key: string, config: RuleCache, fails: bool,
                     sizes: nat -> nat)
      returns (forwarded: seq<Byte>)
      requires forall i :: sizes(i) > 0
      requires w.sent == Nothing && config.enable
      modifies this, w, body
      ensures forwarded == old(body.readBuf) && body.Model() == Buffers(old(body.Model()).Whole(), [])
      ensures w.sent == Nothing.SentAll(backend(r, forwarded))
      ensures
        cache ==
        if fails then old(cache)
        else StoredResponse(old(cache), Some(config), key, Nothing.RecordedAll(backend(r, forwarded)))
      ensures
        var record := Nothing.RecordedAll(backend(r, forwarded));
        cache == if fails || record.status == 0 || (record.status != 200 && !config.cacheError) then old(cache)
                 else old(cache)[key := record]
    {
      var ww := new ResponseWriterWrapper(w);
      forwarded := Forward(ww, r, body, sizes);
      if ww.statusCode <= 0 {
        return;
      }
      var status := ww.statusCode;
      var bytes := ww.GetWrittenBytes();
      if status != 200 && !config.cacheError {
        return;
      }
      if !fails {
        cache := cache[key := Response(status, bytes)];
      }
    }
  }

  // ----- the cache is invisible

  ghost predicate HttpSound(hash: Hash, backend: Backend, cache: map<string, Response>) {
    forall r, body :: hash(Text(r, body)) in cache ==>
      Seen(Replay(cache[hash(Text(r, body))])) == Direct(backend, r, body)
  }

  /** Requests with the same key are answered alike. */
  ghost predicate HttpRespects(hash: Hash, backend: Backend) {
    forall r, b, q, c :: hash(Text(r, b)) == hash(Text(q, c)) ==> Direct(backend, r, b) == Direct(backend, q, c)
  }

  /** The call commits the response's status. */
  predicate IsFinal(e: Event) {
    e.Data? || !Informational(e.code)
  }

  /** The status that a call stands for, an informational one and a plain write counting as 200. */
  function StatusOf(e: Event): nat {
    if e.Header? && !Informational(e.code) then e.code else 200
  }

  /** The first call that commits the status, or the number of calls. */
  function FirstFinal(events: seq<Event>): (i: nat)
    ensures i <= |events| && (i < |events| ==> IsFinal(events[i]))
    ensures forall k :: 0 <= k < i ==> !IsFinal(events[k])
  {
    if events == [] then 0
    else
      var last := |events| - 1;
      var i := FirstFinal(events[..last]);
      if i < last || IsFinal(events[last]) then i else |events|
  }

  /** The last header, or -1. */
  function LastHeader(events: seq<Event>): (j: int)
    ensures -1 <= j < |events| && (j >= 0 ==> events[j].Header?)
    ensures forall k :: j < k < |events| ==> events[k].Data?
  {
    if events == [] then -1
    else
      var last := |events| - 1;
      if events[last].Header? then last else LastHeader(events[..last])
  }

  /** The client is sent the status of the first call that commits one. */
  lemma {:induction false} SentStatus(events: seq<Event>)
    ensures
      var i := FirstFinal(events);
      Nothing.SentAll(events).status == if i < |events| then StatusOf(events[i]) else 0
  {
    if events != [] {
      SentStatus(events[..|events| - 1]);
    }
  }

  /** The record keeps the status of the last header. */
  lemma {:induction false} RecordedStatus(events: seq<Event>)
    ensures
      var j := LastHeader(events);
      var status := Nothing.RecordedAll(events).status;
      (if Informational(status) then 200 else status) == if j >= 0 then StatusOf(events[j]) else 200
  {
    if events != [] {
      RecordedStatus(events[..|events| - 1]);
    }
  }

  /** The backend's last header, if it comes after the call that committed the status, repeats that status. */
  predicate KeepsStatus(events: seq<Event>) {
    var i, j := FirstFinal(events), LastHeader(events);
    i < j ==> StatusOf(events[j]) == StatusOf(events[i])
  }

  /** A recorded response replays what the first client read exactly when the backend keeps to the status
      that it committed. */
  lemma ReplayIsFaithfulIff(events: seq<Event>)
    ensures Seen(Replay(Nothing.RecordedAll(events))) == Seen(Nothing.SentAll(events)) <==> KeepsStatus(events)
  {
    BytesAgree(events);
    SentStatus(events);
    RecordedStatus(events);
  }

  ghost predicate WellBehaved(backend: Backend) {
    forall r, body :: KeepsStatus(backend(r, body))
  }

  /** A status that is written twice is recorded as the last and sent as the first.  The reverse proxy of
      Go's standard library, which is the only backend here, makes no such calls. */
  lemma SecondStatusIsReplayed(page: seq<Byte>)
    ensures
      var events := [Header(200), Data(page), Header(500)];
      && Seen(Nothing.SentAll(events)) == Response(200, page)
      && Seen(Replay(Nothing.RecordedAll(events))) == Response(500, page)
  {
    var events := [Header(200), Data(page), Header(500)];
    assert events[..2] == [Header(200), Data(page)] && events[..2][..1] == [Header(200)] && events[..2][..1][..0] == [];
    assert Nothing.SentAll([Header(200)]) == Nothing.Sent(Header(200));
    assert Nothing.RecordedAll([Header(200)]) == Nothing.Recorded(Header(200));
    assert [] + page == page;
  }

  function CacheAfter(hash: Hash, backend: Backend, cache: map<string, Response>, uses: seq<Use>): map<string, Response>
  {
    if uses == [] then cache
    else AfterUse(hash, backend, CacheAfter(hash, backend, cache, uses[..|uses| - 1]), uses[|uses| - 1])
  }

  lemma StoreKeepsSound(hash: Hash, backend: Backend, cache: map<string, Response>, u: Use)
    requires HttpSound(hash, backend, cache) && HttpRespects(hash, backend) && WellBehaved(backend)
    ensures
      var record := Nothing.RecordedAll(backend(u.r, u.body));
      HttpSound(hash, backend, StoredResponse(cache, u.config, KeyOf(hash, u), record))
  {
    var events := backend(u.r, u.body);
    ReplayIsFaithfulIff(events);
    assert Seen(Replay(Nothing.RecordedAll(events))) == Direct(backend, u.r, u.body);
  }

  lemma {:induction false} UsesKeepSound(hash: Hash, backend: Backend, cache: map<string, Response>, uses: seq<Use>)
    requires HttpSound(hash, backend, cache) && HttpRespects(hash, backend) && WellBehaved(backend)
    ensures HttpSound(hash, backend, CacheAfter(hash, backend, cache, uses))
  {
    if uses != [] {
      var before := uses[..|uses| - 1];
      UsesKeepSound(hash, backend, cache, before);
      StoreKeepsSound(hash, backend, CacheAfter(hash, backend, cache, before), uses[|uses| - 1]);
    }
  }

  /** After any uses of the cache the next client reads status and body as the backend wrote them,
      except that an entry which vanishes between test and read gives an empty page with status 200. */
  lemma HttpCacheIsInvisible(hash: Hash, backend: Backend, cache: map<string, Response>, uses: seq<Use>, u: Use)
    requires HttpSound(hash, backend, cache) && HttpRespects(hash, backend) && WellBehaved(backend)
    ensures
      var now := CacheAfter(hash, backend, cache, uses);
      ReadBy(hash, backend, now, u) ==
      if IsHit(hash, now, u) && u.fault.Vanish? then Response(200, []) else Direct(backend, u.r, u.body)
  {
    UsesKeepSound(hash, backend, cache, uses);
  }

  // ----- the cache key

  const SLASH: Byte := 0x2f

  /** A method without a slash and an URL that starts with one. */
  predicate Usual(r: Request) {
    SLASH !in r.verb && r.url != [] && r.url[0] == SLASH
  }

  /** The hashed texts of two requests are equal exactly when the methods are and URL and body run
      together to the same bytes. */
  lemma SameTextIff(r: Request, b: seq<Byte>, q: Request, c: seq<Byte>)
    requires Usual(r) && Usual(q)
    ensures Text(r, b) == Text(q, c) <==> r.verb == q.verb && r.url + b == q.url + c
  {
    assert Text(r, b) == r.verb + (r.url + b) && Text(q, c) == q.verb + (q.url + c);
    if Text(r, b) == Text(q, c) {
      SlashAt(r, b, q, c);
      SlashAt(q, c, r, b);
      assert r.verb == Text(r, b)[..|r.verb|] && q.verb == Text(q, c)[..|q.verb|];
      assert r.url + b == Text(r, b)[|r.verb|..] && q.url + c == Text(q, c)[|q.verb|..];
    }
  }

  lemma SlashAt(r: Request, b: seq<Byte>, q: Request, c: seq<Byte>)
    requires Usual(r) && Usual(q) && Text(r, b) == Text(q, c)
    ensures |r.verb| >= |q.verb|
  {
    assert Text(r, b)[|r.verb|] == SLASH;
    assert forall i :: 0 <= i < |q.verb| ==> Text(q, c)[i] == q.verb[i];
  }

  /** Without bodies the text identifies the request. */
  lemma BodilessTextsDiffer(r: Request, q: Request)
    requires Usual(r) && Usual(q)
    ensures Text(r, []) == Text(q, []) ==> r == q
  {
    SameTextIff(r, [], q, []);
    assert r.url + [] == r.url && q.url + [] == q.url;
  }
}
