/**
 * The backend adapter of the Maiths chat front end (class MaithsBackendService).
 *
 * A user message is trimmed and POSTed to a fixed, ordered list of candidate
 * routes until one answers with truthy data; a reply text is then picked from a
 * fixed priority of body fields, and any failure becomes one of four apology
 * texts, so sending never fails. A single health flag is overwritten by every
 * HTTP exchange and by the health probe.
 *
 * The transport is abstract: what a POST to candidate i would produce is the
 * value outcomes[i]; only the outcomes of attempted candidates are observed.
 */
module MaithsBackend {
  import opened Wrappers
  import opened JsString

  // ---------------------------------------------------------------------------
  // Values exchanged with the backend
  // ---------------------------------------------------------------------------

  /** A JSON object as an ordered list of key/value pairs (string values only). */
  type Fields = seq<(string, string)>

  /** The `data` of an axios response: JSON null, a bare string, or an object. */
  datatype Body = Null | Str(s: string) | Obj(fields: Fields)

  /** What a request can throw: an axios error (code, HTTP status) or any other Error. */
  datatype Thrown =
    | AxiosError(code: Option<string>, status: Option<int>)
    | PlainError(message: string)

  /** The outcome of one HTTP exchange: a 2xx response with its data, or a thrown error. */
  datatype Outcome = Ok(body: Body) | Err(error: Thrown)

  /** The request body sent to every candidate route. */
  datatype ChatRequest = ChatRequest(message: string, timestamp: string, userId: string)

  /** What sendMessage resolves to. */
  datatype BackendReply = BackendReply(response: string, timestamp: string)

  /** What getBackendInfo returns. */
  datatype BackendInfo = BackendInfo(url: string, healthy: bool)

  /** The four categories of caught error, each with its own apology text. */
  datatype Apology = ConnectionRefused | RouteNotFound | ServerFault | TechnicalDifficulties

  /**
   * What the reply text is made of: a text read from the backend's data, the
   * "not sure how to respond" fallback, or an apology. Render gives the exact text.
   */
  datatype Reply = BackendText(text: string) | Unsure | Apologize(apology: Apology)

  // ---------------------------------------------------------------------------
  // Constants
  // ---------------------------------------------------------------------------

  /** The candidate routes, in the order they are tried. */
  const Endpoints: seq<string> := ["/chat", "/api/chat", "/message", "/ask"]

  /** The body fields that may hold the reply, in priority order. */
  const ReplyFields: seq<string> := ["response", "message", "content", "reply", "text"]

  const ConnRefusedCode := "ECONNREFUSED"

  /** Thrown when no candidate produced a response and no error was recorded. */
  const AllEndpointsFailed := PlainError("All endpoints failed")

  /** The TypeError raised by reading a field of a null body. */
  const NullBodyError := PlainError("Cannot read properties of null (reading 'response')")

  const FallbackReply := "I received your message but I'm not sure how to respond right now! \U{1F495}"

  const ConnRefusedReply := "Oops! I can't connect to my brain right now! \U{1F97A} Make sure your backend is running:\n\n1. Go to `/home/yash/Documents/maiths-ai-gf`\n2. Run `npm run build`\n3. Run `npm start`\n\nThen try chatting with me again, sweetie! \U{1F496}"

  const NotFoundReply := "Hmm, I'm having trouble finding the right endpoint to chat! \U{1F914} Your backend might be using a different API route. Check that your backend has a `/chat` endpoint, darling! \U{1F495}"

  const ServerErrorReply := "Uh oh! Something went wrong in my brain! \U{1F635} There might be an error in your backend code. Check the backend console for error messages, honey! \U{1F496}"

  const GenericReply := "I'm having some technical difficulties! \U{1F97A} Please make sure your backend is running properly and try again, sweetie! \U{1F496}"

  // ---------------------------------------------------------------------------
  // JavaScript truthiness and property access on response data
  // ---------------------------------------------------------------------------

  /** A field is truthy when it is present and a non-empty string. */
  predicate Truthy(v: Option<string>) {
    v.Some? && v.value != []
  }

  /** Truthiness of response data: null and "" are falsy, every object is truthy. */
  predicate DataTruthy(b: Body) {
    match b
    case Null => false
    case Str(s) => s != []
    case Obj(_) => true
  }

  /**
   * Property access on a parsed JSON object: a key that occurs several times
   * holds the value of its last occurrence.
   */
  function Lookup(fs: Fields, key: string): (r: Option<string>)
    ensures r.None? <==> forall i :: 0 <= i < |fs| ==> fs[i].0 != key
    ensures r.Some? ==> exists i :: (0 <= i < |fs| && fs[i] == (key, r.value)
      && forall j :: i < j < |fs| ==> fs[j].0 != key)
  {
    if fs == [] then None
    else if fs[|fs| - 1].0 == key then Some(fs[|fs| - 1].1)
    else Lookup(fs[..|fs| - 1], key)
  }

  // ---------------------------------------------------------------------------
  // JSON.stringify of an object (without string escaping)
  // ---------------------------------------------------------------------------

  function Quote(s: string): string {
    "\"" + s + "\""
  }

  function Members(fs: Fields): string {
    if fs == [] then ""
    else if |fs| == 1 then Quote(fs[0].0) + ":" + Quote(fs[0].1)
    else Quote(fs[0].0) + ":" + Quote(fs[0].1) + "," + Members(fs[1..])
  }

  /** The serialized object is never empty: it is always enclosed in braces. */
  function Stringify(fs: Fields): (r: string)
    ensures |r| >= 2 && r[0] == '{' && r[|r| - 1] == '}'
  {
    "{" + Members(fs) + "}"
  }

  // ---------------------------------------------------------------------------
  // Reply extraction
  // ---------------------------------------------------------------------------

  /**
   * The reply picked from an object body: the first truthy field of response,
   * message, content, reply, text; otherwise the serialized object. It is
   * never empty, so the fallback text is never used for an object body.
   */
  function ExtractObject(fs: Fields): (r: string)
    ensures r != []
  {
    if Truthy(Lookup(fs, "response")) then Lookup(fs, "response").value
    else if Truthy(Lookup(fs, "message")) then Lookup(fs, "message").value
    else if Truthy(Lookup(fs, "content")) then Lookup(fs, "content").value
    else if Truthy(Lookup(fs, "reply")) then Lookup(fs, "reply").value
    else if Truthy(Lookup(fs, "text")) then Lookup(fs, "text").value
    else Stringify(fs)
  }

  /**
   * The priority is fixed: when field ReplyFields[k] is the first truthy one, the
   * reply is its value, whatever the later fields hold.
   */
  lemma {:induction false} ExtractObjectPriority(fs: Fields, k: nat)
    requires k < |ReplyFields| && Truthy(Lookup(fs, ReplyFields[k]))
    requires forall j :: 0 <= j < k ==> !Truthy(Lookup(fs, ReplyFields[j]))
    ensures ExtractObject(fs) == Lookup(fs, ReplyFields[k]).value
  {
    if k > 0 { assert !Truthy(Lookup(fs, ReplyFields[0])); }
    if k > 1 { assert !Truthy(Lookup(fs, ReplyFields[1])); }
    if k > 2 { assert !Truthy(Lookup(fs, ReplyFields[2])); }
    if k > 3 { assert !Truthy(Lookup(fs, ReplyFields[3])); }
  }

  /** With none of the five fields truthy, the reply is the serialized object. */
  lemma {:induction false} ExtractObjectStringifies(fs: Fields)
    requires forall j :: 0 <= j < |ReplyFields| ==> !Truthy(Lookup(fs, ReplyFields[j]))
    ensures ExtractObject(fs) == Stringify(fs)
  {
    assert !Truthy(Lookup(fs, ReplyFields[0])) && !Truthy(Lookup(fs, ReplyFields[1]));
    assert !Truthy(Lookup(fs, ReplyFields[2])) && !Truthy(Lookup(fs, ReplyFields[3]));
    assert !Truthy(Lookup(fs, ReplyFields[4]));
  }

  /**
   * Reading the reply out of response data. A bare string has none of the
   * fields and is used as it is; reading a field of null throws a TypeError.
   */
  function Extract(b: Body): (r: Result<string, Thrown>)
    ensures r.Failure? <==> b.Null?
    ensures r.Failure? ==> r.error.PlainError?
    ensures b.Str? ==> r == Success(b.s)
    ensures DataTruthy(b) ==> r.Success? && r.value != []
  {
    match b
    case Null => Failure(NullBodyError)
    case Str(s) => Success(s)
    case Obj(fs) => Success(ExtractObject(fs))
  }

  /** An empty extracted reply is replaced by the fallback; a non-empty one is kept as it is. */
  function WithFallback(s: string): (r: Reply)
    ensures r.BackendText? <==> s != []
    ensures r.BackendText? ==> r.text == s
    ensures !r.BackendText? ==> r == Unsure
  {
    if s == [] then Unsure else BackendText(s)
  }

  // ---------------------------------------------------------------------------
  // Error classification
  // ---------------------------------------------------------------------------

  /**
   * The apology for a caught error, by fixed precedence: an axios error with
   * code ECONNREFUSED, then an axios error with status 404, then one with status
   * 500; everything else, including every non-axios error, is a technical difficulty.
   */
  function Classify(e: Thrown): (a: Apology)
    ensures a == ConnectionRefused <==> e.AxiosError? && e.code == Some(ConnRefusedCode)
    ensures a == RouteNotFound <==>
      e.AxiosError? && e.code != Some(ConnRefusedCode) && e.status == Some(404)
    ensures a == ServerFault <==>
      e.AxiosError? && e.code != Some(ConnRefusedCode) && e.status == Some(500)
    ensures a == TechnicalDifficulties <==>
      e.PlainError? || (e.code != Some(ConnRefusedCode) && e.status != Some(404) && e.status != Some(500))
  {
    if e.AxiosError? && e.code == Some(ConnRefusedCode) then ConnectionRefused
    else if e.AxiosError? && e.status == Some(404) then RouteNotFound
    else if e.AxiosError? && e.status == Some(500) then ServerFault
    else TechnicalDifficulties
  }

  /**
   * The text the caller receives. A backend text is passed through unchanged; the
   * fallback and each apology have their own fixed text. The result is never empty.
   */
  function Render(r: Reply): (s: string)
    requires r.BackendText? ==> r.text != []
    ensures s != []
    ensures r.BackendText? ==> s == r.text
  {
    assert |FallbackReply| == 68 && |ConnRefusedReply| == 214 && |NotFoundReply| == 171;
    assert |ServerErrorReply| == 143 && |GenericReply| == 117;
    match r
    case BackendText(text) => text
    case Unsure => FallbackReply
    case Apologize(ConnectionRefused) => ConnRefusedReply
    case Apologize(RouteNotFound) => NotFoundReply
    case Apologize(ServerFault) => ServerErrorReply
    case Apologize(TechnicalDifficulties) => GenericReply
  }

  /**
   * The fixed texts are pairwise different: the caller can tell the categories apart.
   * The five constants differ in length, which Dafny sees directly.
   */
  lemma RenderDistinguishesFixedTexts(r1: Reply, r2: Reply)
    requires !r1.BackendText? && !r2.BackendText?
    ensures Render(r1) == Render(r2) <==> r1 == r2
  {
  }

  // ---------------------------------------------------------------------------
  // The endpoint fan-out, as functions of the per-candidate outcomes
  // ---------------------------------------------------------------------------

  /** An attempt that ends the loop: a response whose data is truthy. */
  predicate IsHit(o: Outcome) {
    o.Ok? && DataTruthy(o.body)
  }

  /**
   * How many candidates are attempted: up to and including the first hit, or
   * all of them when there is none.
   */
  function Attempts(os: seq<Outcome>): (n: nat)
    ensures n <= |os|
    ensures |os| > 0 ==> n > 0
    ensures forall j :: 0 <= j < n - 1 ==> !IsHit(os[j])
    ensures n < |os| ==> IsHit(os[n - 1])
  {
    if os == [] then 0
    else if IsHit(os[0]) then 1
    else 1 + Attempts(os[1..])
  }

  /**
   * The `response` local after the first n attempts: the data of the last attempt
   * that returned, since a thrown error never clears it; None when every attempt threw.
   */
  function LastOk(os: seq<Outcome>, n: nat): (r: Option<Body>)
    requires n <= |os|
    ensures r.None? <==> forall j :: 0 <= j < n ==> os[j].Err?
  {
    if n == 0 then None
    else if os[n - 1].Ok? then Some(os[n - 1].body)
    else LastOk(os, n - 1)
  }

  /** The `lastError` local after the first n attempts: the error of the last attempt that threw. */
  function LastErr(os: seq<Outcome>, n: nat): (r: Option<Thrown>)
    requires n <= |os|
    ensures r.None? <==> forall j :: 0 <= j < n ==> os[j].Ok?
  {
    if n == 0 then None
    else if os[n - 1].Err? then Some(os[n - 1].error)
    else LastErr(os, n - 1)
  }

  /**
   * Everything after the loop: with no response, the last error (or the generic
   * "All endpoints failed" error) is thrown; otherwise the reply is extracted, and
   * an error raised while extracting is caught as well. A backend text is never empty.
   */
  function Settle(response: Option<Body>, lastError: Option<Thrown>): (r: Reply)
    ensures r.BackendText? ==> r.text != []
  {
    var extracted: Result<string, Thrown> :=
      if response.None? then Failure(if lastError.Some? then lastError.value else AllEndpointsFailed)
      else Extract(response.value);
    match extracted
    case Success(s) => WithFallback(s)
    case Failure(e) => Apologize(Classify(e))
  }

  /** The reply sendMessage resolves to when the candidates would produce `os`. */
  function ReplyOf(os: seq<Outcome>): (r: Reply)
    ensures r.BackendText? ==> r.text != []
  {
    var n := Attempts(os);
    Settle(LastOk(os, n), LastErr(os, n))
  }

  // ---------------------------------------------------------------------------
  // Properties of the fan-out and the reply
  // ---------------------------------------------------------------------------

  /** LastOk is the data of an attempt that returned, and every later attempt threw. */
  lemma {:induction false} LastOkIsLast(os: seq<Outcome>, n: nat)
    requires n <= |os| && LastOk(os, n).Some?
    ensures exists j :: (0 <= j < n && os[j] == Ok(LastOk(os, n).value)
      && forall i :: j < i < n ==> os[i].Err?)
  {
    var v := LastOk(os, n).value;
    if os[n - 1].Ok? {
      assert 0 <= n - 1 < n && os[n - 1] == Ok(v);
    } else {
      assert LastOk(os, n - 1) == Some(v);
      LastOkIsLast(os, n - 1);
      var j :| 0 <= j < n - 1 && os[j] == Ok(v) && forall i :: j < i < n - 1 ==> os[i].Err?;
      assert 0 <= j < n && os[j] == Ok(v) && forall i :: j < i < n ==> os[i].Err?;
    }
  }

  /** LastErr is the error of an attempt that threw, and every later attempt returned. */
  lemma {:induction false} LastErrIsLast(os: seq<Outcome>, n: nat)
    requires n <= |os| && LastErr(os, n).Some?
    ensures exists j :: (0 <= j < n && os[j] == Err(LastErr(os, n).value)
      && forall i :: j < i < n ==> os[i].Ok?)
  {
    var v := LastErr(os, n).value;
    if os[n - 1].Err? {
      assert 0 <= n - 1 < n && os[n - 1] == Err(v);
    } else {
      assert LastErr(os, n - 1) == Some(v);
      LastErrIsLast(os, n - 1);
      var j :| 0 <= j < n - 1 && os[j] == Err(v) && forall i :: j < i < n - 1 ==> os[i].Ok?;
      assert 0 <= j < n && os[j] == Err(v) && forall i :: j < i < n ==> os[i].Ok?;
    }
  }

  lemma PrefixStep<T>(s: seq<T>, i: nat)
    requires i < |s|
    ensures s[..i + 1] == s[..i] + [s[i]]
  {
  }

  /**
   * Attempts is determined by the position of the first hit. This follows from
   * the postconditions of Attempts alone.
   */
  lemma AttemptsAt(os: seq<Outcome>, k: nat)
    requires k <= |os|
    requires forall j :: 0 <= j < k ==> !IsHit(os[j])
    requires k < |os| ==> IsHit(os[k])
    ensures Attempts(os) == if k < |os| then k + 1 else k
  {
  }

  /**
   * The first candidate with truthy data wins: exactly the candidates up to it are
   * attempted and the reply is the text read from its data, whatever earlier
   * attempts returned or threw.
   */
  lemma {:induction false} FirstHitWins(os: seq<Outcome>, k: nat)
    requires k < |os| && IsHit(os[k])
    requires forall j :: 0 <= j < k ==> !IsHit(os[j])
    ensures Attempts(os) == k + 1
    ensures ReplyOf(os) == BackendText(Extract(os[k].body).value)
  {
    AttemptsAt(os, k);
  }

  /**
   * Candidates after the first hit are never attempted: changing their outcomes
   * changes neither how many attempts are made nor the reply.
   */
  lemma {:induction false} LaterCandidatesIgnored(os: seq<Outcome>, os': seq<Outcome>, k: nat)
    requires k < |os| && k < |os'|
    requires forall j :: 0 <= j <= k ==> os'[j] == os[j]
    requires IsHit(os[k])
    requires forall j :: 0 <= j < k ==> !IsHit(os[j])
    ensures Attempts(os') == Attempts(os) == k + 1
    ensures ReplyOf(os') == ReplyOf(os)
  {
    FirstHitWins(os, k);
    FirstHitWins(os', k);
  }

  /**
   * When every attempt throws, the error that is classified is the one from the
   * last candidate, or the generic "All endpoints failed" error when there were none.
   */
  lemma {:induction false} AllThrowLastErrorClassified(os: seq<Outcome>)
    requires forall j :: 0 <= j < |os| ==> os[j].Err?
    ensures Attempts(os) == |os|
    ensures ReplyOf(os) == Apologize(Classify(if os == [] then AllEndpointsFailed else os[|os| - 1].error))
  {
    AttemptsAt(os, |os|);
  }

  /**
   * With no candidate answering truthy data, every candidate is attempted. If some
   * attempt returned (with falsy data), that data is still used, whatever the errors
   * thrown after it: the reply is the fallback when the last returned data is the
   * empty string, and a technical-difficulties apology when it is null (the TypeError
   * raised by reading its field).
   */
  lemma {:induction false} NoHitRetainsFalsyData(os: seq<Outcome>)
    requires forall j :: 0 <= j < |os| ==> !IsHit(os[j])
    requires LastOk(os, |os|).Some?
    ensures Attempts(os) == |os|
    ensures LastOk(os, |os|) == Some(Null) || LastOk(os, |os|) == Some(Str(""))
    ensures LastOk(os, |os|) == Some(Null) ==> ReplyOf(os) == Apologize(TechnicalDifficulties)
    ensures LastOk(os, |os|) == Some(Str("")) ==> ReplyOf(os) == Unsure
  {
    AttemptsAt(os, |os|);
    LastOkIsLast(os, |os|);
    var j :| 0 <= j < |os| && os[j] == Ok(LastOk(os, |os|).value);
    assert !IsHit(os[j]);
  }

  /** A backend text in the reply always comes from the data of a candidate that answered truthy data. */
  lemma {:induction false} BackendTextComesFromHit(os: seq<Outcome>)
    requires ReplyOf(os).BackendText?
    ensures exists k :: 0 <= k < |os| && IsHit(os[k]) && ReplyOf(os).text == Extract(os[k].body).value
  {
    var n := Attempts(os);
    if n > 0 && IsHit(os[n - 1]) {
      FirstHitWins(os, n - 1);
    } else {
      // no attempt answered truthy data, so the data kept (if any) is null or ""
      LastOkIsLast(os, n);
      assert false;
    }
  }

  /**
   * Example: /chat and /api/chat answer 404 and /message answers {"reply": "hi there"};
   * exactly the first three routes are attempted and the reply is "hi there".
   */
  lemma ThirdRouteAnswers(last: Outcome)
    ensures var notFound := Err(AxiosError(None, Some(404)));
      var os := [notFound, notFound, Ok(Obj([("reply", "hi there")])), last];
      Endpoints[..Attempts(os)] == ["/chat", "/api/chat", "/message"]
      && ReplyOf(os) == BackendText("hi there")
  {
    var notFound := Err(AxiosError(None, Some(404)));
    var os := [notFound, notFound, Ok(Obj([("reply", "hi there")])), last];
    FirstHitWins(os, 2);
    assert Endpoints[..3] == ["/chat", "/api/chat", "/message"];
  }

  /** Example: every candidate route answers 404, so the reply is the route-not-found apology. */
  lemma NoRouteFound()
    ensures var notFound := Err(AxiosError(None, Some(404)));
      ReplyOf([notFound, notFound, notFound, notFound]) == Apologize(RouteNotFound)
  {
    var notFound := Err(AxiosError(None, Some(404)));
    AllThrowLastErrorClassified([notFound, notFound, notFound, notFound]);
  }

  /** Example: a body {"foo": "bar"} with none of the known fields is shown serialized. */
  lemma UnknownShapeSerialized()
    ensures Extract(Obj([("foo", "bar")])) == Success("{\"foo\":\"bar\"}")
  {
    var fs := [("foo", "bar")];
    forall j | 0 <= j < |ReplyFields|
      ensures !Truthy(Lookup(fs, ReplyFields[j]))
    {
      assert fs[0].0 != ReplyFields[j];
    }
    ExtractObjectStringifies(fs);
    assert Members(fs) == Quote("foo") + ":" + Quote("bar");
    assert ExtractObject(fs) == Stringify(fs);
    assert Stringify(fs) == "{\"foo\":\"bar\"}";
    assert Extract(Obj(fs)) == Success(ExtractObject(fs));
  }

  /** The text sendMessage resolves to is never empty. */
  lemma ReplyTextNonEmpty(os: seq<Outcome>)
    ensures Render(ReplyOf(os)) != []
  {
  }

  // ---------------------------------------------------------------------------
  // The adapter object
  // ---------------------------------------------------------------------------

  /**
   * MaithsBackendService. `healthy` is the isBackendHealthy field; the ghost
   * `exchanges` records every HTTP outcome the response interceptor has seen,
   * and Valid() says the flag reflects only the most recent one.
   */
  class BackendService {
    const baseUrl: string
    var healthy: bool
    ghost var exchanges: seq<Outcome>

    ghost predicate Valid()
      reads this
    {
      healthy == (|exchanges| > 0 && exchanges[|exchanges| - 1].Ok?)
    }

    /** A fresh adapter is unhealthy until an exchange succeeds. */
    constructor (baseUrl: string)
      ensures Valid()
      ensures this.baseUrl == baseUrl && exchanges == [] && !healthy
    {
      this.baseUrl := baseUrl;
      healthy := false;
      exchanges := [];
    }

    /** The response interceptor: every success sets the flag, every error clears it. */
    method Observe(o: Outcome)
      requires Valid()
      modifies this
      ensures Valid()
      ensures exchanges == old(exchanges) + [o]
      ensures healthy == o.Ok?
    {
      healthy := o.Ok?;
      exchanges := exchanges + [o];
    }

    /** The GET /health probe, seen by the interceptor and then recorded again by the probe itself. */
    method CheckBackendHealth(probe: Outcome)
      requires Valid()
      modifies this
      ensures Valid()
      ensures exchanges == old(exchanges) + [probe]
      ensures healthy == probe.Ok?
    {
      Observe(probe);
      if probe.Ok? {
        healthy := true;
      } else {
        healthy := false;
      }
    }

    /** isHealthy: runs the probe and reports its outcome. */
    method IsHealthy(probe: Outcome) returns (ok: bool)
      requires Valid()
      modifies this
      ensures Valid()
      ensures exchanges == old(exchanges) + [probe]
      ensures ok == healthy == probe.Ok?
    {
      CheckBackendHealth(probe);
      ok := healthy;
    }

    /** getBackendInfo: the configured URL and exactly the current flag. */
    method GetBackendInfo() returns (info: BackendInfo)
      ensures info.url == baseUrl && info.healthy == healthy
      ensures Valid() ==> (info.healthy <==> |exchanges| > 0 && exchanges[|exchanges| - 1].Ok?)
    {
      info := BackendInfo(baseUrl, healthy);
    }

    /**
     * The endpoint loop of sendMessage: candidates are tried in order until the
     * first hit, every attempt passes through the interceptor, and the two locals
     * `response` and `lastError` end as LastOk and LastErr of the attempts made.
     */
    method FanOut(outcomes: seq<Outcome>)
      returns (response: Option<Body>, lastError: Option<Thrown>, attempted: seq<string>)
      requires Valid()
      requires |outcomes| == |Endpoints|
      modifies this
      ensures Valid()
      ensures attempted == Endpoints[..Attempts(outcomes)]
      ensures exchanges == old(exchanges) + outcomes[..Attempts(outcomes)]
      ensures response == LastOk(outcomes, Attempts(outcomes))
      ensures lastError == LastErr(outcomes, Attempts(outcomes))
    {
      response, lastError, attempted := None, None, [];
      var i, hit := 0, false;
      while i < |Endpoints|
        invariant 0 <= i <= |Endpoints|
        invariant Valid()
        invariant forall j :: 0 <= j < i ==> !IsHit(outcomes[j])
        invariant attempted == Endpoints[..i]
        invariant exchanges == old(exchanges) + outcomes[..i]
        invariant response == LastOk(outcomes, i)
        invariant lastError == LastErr(outcomes, i)
      {
        var o := outcomes[i];
        attempted := attempted + [Endpoints[i]];
        PrefixStep(Endpoints, i);
        ghost var before := exchanges;
        Observe(o);
        PrefixStep(outcomes, i);
        assert exchanges == old(exchanges) + outcomes[..i + 1] by {
          assert exchanges == before + [o];
          assert before + [o] == old(exchanges) + (outcomes[..i] + [o]);
        }
        if o.Ok? {
          response := Some(o.body);
          if DataTruthy(o.body) {
            AttemptsAt(outcomes, i);
            hit := true;
            i := i + 1;
            break;
          }
        } else {
          lastError := Some(o.error);
        }
        assert !IsHit(outcomes[i]);
        i := i + 1;
      }
      if !hit {
        AttemptsAt(outcomes, i);
      }
    }

    /**
     * sendMessage. The trimmed text is sent even when it is empty, to at least the
     * first candidate; the flag ends as the outcome of the last attempt; the reply is
     * the rendering of ReplyOf(outcomes) and is never empty. `outcomes[i]` is what POSTing to
     * Endpoints[i] would produce; `sentAt`, `stamp` and `repliedAt` stand for the
     * clock readings (new Date().toISOString() and Date.now()).
     */
    method SendMessage(message: string, sentAt: string, stamp: string, repliedAt: string,
                       outcomes: seq<Outcome>)
      returns (request: ChatRequest, attempted: seq<string>, reply: BackendReply)
      requires Valid()
      requires |outcomes| == |Endpoints|
      modifies this
      ensures Valid()
      ensures request == ChatRequest(Trim(message), sentAt, "user-" + stamp)
      ensures |attempted| >= 1
      ensures attempted == Endpoints[..Attempts(outcomes)]
      ensures exchanges == old(exchanges) + outcomes[..Attempts(outcomes)]
      ensures healthy == outcomes[Attempts(outcomes) - 1].Ok?
      ensures reply == BackendReply(Render(ReplyOf(outcomes)), repliedAt)
      ensures reply.response != []
    {
      request := ChatRequest(Trim(message), sentAt, "user-" + stamp);
      var response, lastError;
      response, lastError, attempted := FanOut(outcomes);
      ghost var n := Attempts(outcomes);
      assert exchanges[|exchanges| - 1] == outcomes[n - 1];
      reply := BackendReply(Render(Settle(response, lastError)), repliedAt);
    }
  }
}
