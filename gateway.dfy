/** The gateway node: the ESP-NOW receive callback copies the record and raises a
    flag; the main loop, seeing the flag, picks the endpoint, HTTP method and JSON
    fields by the record's kind and sends the request, retrying up to three times
    while the HTTP client reports no response (a code of 0 or below). Any positive
    code, 4xx and 5xx included, ends the retries. */
module Gateway {
  import opened CText
  import opened Options
  import opened Retry
  import EspNow

  const MuTapUrl := "https://thanhdat.nbqtai.id.vn/giaodich/mu-tap/"
  const TscDrcUrl := "https://thanhdat.nbqtai.id.vn/giaodich/tsc-drc/"
  const MuNuocUrl := "https://thanhdat.nbqtai.id.vn/giaodich/mu-nuoc/"

  /** The global `maxRetries`, also the default of `sendWithRetry`'s parameter. */
  const MaxRetries: int := 3

  /** The fixed factor deriving DRC from TSC. */
  const DrcFactor: real := 0.9

  datatype Json = JText(text: string) | JNumber(number: real)
  datatype Field = Field(key: string, value: Json)

  /** An HTTP request: method, URL and the JSON object's fields in order. */
  datatype Request = Request(verb: string, url: string, body: seq<Field>)

  /** The choice `sendHttpRequest` makes from the received record; `atof` parses the
      value text. `None` when the kind is none of 1, 2 and 3: nothing is sent. */
  function Route(r: EspNow.Record, atof: string -> real): (req: Option<Request>)
    ensures req.Some? <==> r.kind == 1 || r.kind == 2 || r.kind == 3
    ensures req.Some? ==>
      |req.value.body| >= 2 &&
      req.value.body[0] == Field("RFID", JText(r.uid)) &&
      req.value.body[1].value == JNumber(atof(r.value)) &&
      (req.value.verb == "POST" <==> r.kind == 1) &&
      (req.value.verb == "POST" || req.value.verb == "PUT")
  {
    var rfid := Field("RFID", JText(r.uid));
    var v := atof(r.value);
    if r.kind == 1 then
      Some(Request("POST", MuTapUrl, [rfid, Field("KhoiLuongMuTap", JNumber(v))]))
    else if r.kind == 3 then
      Some(Request("PUT", TscDrcUrl,
                   [rfid, Field("TSC", JNumber(v)), Field("DRC", JNumber(v * DrcFactor))]))
    else if r.kind == 2 then
      Some(Request("PUT", MuNuocUrl, [rfid, Field("KhoiLuongMuNuoc", JNumber(v))]))
    else None
  }

  /** Each kind goes to its own endpoint: the URL identifies the kind. */
  lemma RoutesDistinct(r1: EspNow.Record, r2: EspNow.Record, atof: string -> real)
    requires Route(r1, atof).Some? && Route(r2, atof).Some?
    requires Route(r1, atof).value.url == Route(r2, atof).value.url
    ensures r1.kind == r2.kind
  {
    assert MuTapUrl[39] == 'm' && MuTapUrl[42] == 't';
    assert MuNuocUrl[39] == 'm' && MuNuocUrl[42] == 'n';
    assert TscDrcUrl[39] == 't';
  }

  /** For kind 3 the body carries exactly TSC and DRC = 0.9 * TSC after the RFID. */
  lemma DrcIsScaledTsc(r: EspNow.Record, atof: string -> real)
    requires r.kind == 3
    ensures var body := Route(r, atof).value.body;
      |body| == 3 && body[1].key == "TSC" && body[2].key == "DRC" &&
      body[2].value == JNumber(body[1].value.number * DrcFactor)
  {
  }

  /** The outcome of each request as the retry loop judges it: a positive code. */
  function Answered(codes: seq<int>): (ok: seq<bool>)
    ensures |ok| == |codes|
    ensures forall i :: 0 <= i < |codes| ==> (ok[i] <==> codes[i] > 0)
  {
    seq(|codes|, i requires 0 <= i < |codes| => codes[i] > 0)
  }

  /** `sendWithRetry`: `codes[k]` is what `http.POST`/`http.PUT` returns on request `k`.
      Returns the last code and the number of requests made. */
  method SendWithRetry(verb: string, maxRetries: int, codes: seq<int>)
    returns (code: int, requests: nat)
    requires maxRetries <= |codes|
    ensures maxRetries <= 0 || (verb != "POST" && verb != "PUT") ==>
      code == -1 && requests == 0
    ensures maxRetries > 0 && (verb == "POST" || verb == "PUT") ==>
      1 <= requests <= maxRetries &&
      requests == AttemptsMade(Answered(codes), maxRetries) &&
      code == codes[requests - 1] &&
      (forall j :: 0 <= j < requests - 1 ==> codes[j] <= 0) &&
      (code > 0 || requests == maxRetries)
  {
    code := -1;
    requests := 0;
    var retryCount := 0;
    while retryCount < maxRetries
      invariant 0 <= retryCount <= maxRetries || (maxRetries <= 0 && retryCount == 0)
      invariant requests == retryCount
      invariant forall j :: 0 <= j < retryCount ==> codes[j] <= 0
      invariant retryCount > 0 ==> code == codes[retryCount - 1]
      invariant retryCount == 0 ==> code == -1
      invariant retryCount > 0 ==> verb == "POST" || verb == "PUT"
    {
      if verb == "POST" {
        code := codes[retryCount];
      } else if verb == "PUT" {
        code := codes[retryCount];
      } else {
        return -1, 0;
      }
      requests := requests + 1;
      if code > 0 {
        break;
      }
      retryCount := retryCount + 1;
    }
    if maxRetries > 0 && (verb == "POST" || verb == "PUT") {
      assert FirstTrue(Answered(codes), maxRetries as nat, 0)
          == if code > 0 then requests - 1 else maxRetries as nat;
    }
  }

  /** A retry loop over three requests that fails twice and then gets any HTTP
      status, an error status included, stops there and returns that status. */
  lemma ThirdAnswerDelivers(codes: seq<int>)
    requires |codes| >= 3 && codes[0] <= 0 && codes[1] <= 0 && codes[2] > 0
    ensures AttemptsMade(Answered(codes), 3) == 3
  {
    AttemptsExact(Answered(codes), 3, 2);
  }

  /** The gateway's globals: the received `incoming` bytes and `dataReceived`. */
  class Node {
    var incoming: seq<byte>
    var dataReceived: bool

    ghost predicate Valid()
      reads this
    {
      |incoming| == EspNow.RecordSize
    }

    /** The globals at power-up: all zero. */
    constructor ()
      ensures Valid() && incoming == Zeros(EspNow.RecordSize) && !dataReceived
    {
      incoming := Zeros(EspNow.RecordSize);
      dataReceived := false;
    }

    /** `onDataRecv`: copies `sizeof(struct_message)` bytes whatever the frame's
        length claims, and raises the flag. */
    method OnDataRecv(incomingData: seq<byte>)
      requires |incomingData| >= EspNow.RecordSize
      modifies this
      ensures Valid() && dataReceived
      ensures incoming == incomingData[..EspNow.RecordSize]
    {
      incoming := incomingData[..EspNow.RecordSize];
      dataReceived := true;
    }

    /** `sendHttpRequest`: route the received record, then send with retries.
        `codes` are the HTTP client's results per request. */
    method SendHttpRequest(codes: seq<int>, atof: string -> real)
      returns (request: Option<Request>, code: Option<int>, requests: nat)
      requires Valid() && |codes| >= MaxRetries
      ensures request == Route(EspNow.Decode(incoming), atof)
      ensures request.None? ==> code.None? && requests == 0
      ensures request.Some? ==>
        code.Some? && 1 <= requests <= MaxRetries &&
        requests == AttemptsMade(Answered(codes), MaxRetries) &&
        code.value == codes[requests - 1]
    {
      request := Route(EspNow.Decode(incoming), atof);
      if request.None? {
        return request, None, 0;
      }
      var c;
      c, requests := SendWithRetry(request.value.verb, MaxRetries, codes);
      code := Some(c);
    }

    /** One iteration of `loop`: forward only when the flag is up, then lower it. */
    method Loop(codes: seq<int>, atof: string -> real)
      returns (forwarded: Option<Request>, requests: nat)
      requires Valid() && |codes| >= MaxRetries
      modifies this
      ensures Valid() && incoming == old(incoming) && !dataReceived
      ensures !old(dataReceived) ==> forwarded.None? && requests == 0
      ensures old(dataReceived) ==>
        forwarded == Route(EspNow.Decode(incoming), atof) &&
        requests == if forwarded.Some? then AttemptsMade(Answered(codes), MaxRetries) else 0
    {
      forwarded, requests := None, 0;
      if dataReceived {
        var code;
        forwarded, code, requests := SendHttpRequest(codes, atof);
        dataReceived := false;
      }
    }
  }

  /** What a station sends reaches the backend: a well-formed record of kind 1, 2
      or 3, once received, is forwarded with its UID text as `RFID` and its value
      parsed as the measurement. */
  lemma {:induction false} StationRecordForwarded(r: EspNow.Record, atof: string -> real)
    requires EspNow.WellFormed(r) && 1 <= r.kind <= 3
    ensures var req := Route(EspNow.Decode(EspNow.Encode(r)), atof);
      req.Some? &&
      req.value.body[0] == Field("RFID", JText(r.uid)) &&
      req.value.body[1].value == JNumber(atof(r.value))
  {
    EspNow.RecordRoundTrip(r);
  }
}
