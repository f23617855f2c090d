/**
 * The `skin-diagnosis` edge function: it validates the request, builds the
 * call to the generative model, and turns the model's free-text reply into
 * the diagnosis JSON the portal shows.
 *
 * The HTTP exchange with the model is a function parameter (`gemini`), and so
 * is `JSON.parse` (`parse`, `None` when it throws).  Messages of exceptions
 * raised by the runtime (an unreadable request body, a rejected fetch, a
 * TypeError) are inputs as well, because their text comes from the runtime
 * and not from this code.
 */
module SkinDiagnosis {
  import opened Wrappers
  import opened Text

  // ---------------------------------------------------------------------
  // JavaScript values
  // ---------------------------------------------------------------------

  /** A value produced by `JSON.parse` or read from one. */
  datatype Js =
    | JUndefined
    | JNull
    | JBool(b: bool)
    | JNum(n: real)
    | JStr(s: string)
    | JArr(items: seq<Js>)
    | JObj(fields: map<string, Js>)

  /** JavaScript truthiness; note that `[]` and `{}` are truthy. */
  predicate Truthy(v: Js) {
    match v
    case JUndefined => false
    case JNull => false
    case JBool(b) => b
    case JNum(n) => n != 0.0
    case JStr(s) => s != ""
    case JArr(_) => true
    case JObj(_) => true
  }

  /** `a || b`. */
  function OrElse(a: Js, b: Js): Js {
    if Truthy(a) then a else b
  }

  predicate Nullish(v: Js) {
    v.JUndefined? || v.JNull?
  }

  /** `v.key` on a value that is not null or undefined (own properties only). */
  function Field(v: Js, key: string): Js
    requires !Nullish(v)
  {
    match v
    case JObj(m) => if key in m then m[key] else JUndefined
    case _ => JUndefined
  }

  /** `v?.key`. */
  function OptField(v: Js, key: string): Js {
    if Nullish(v) then JUndefined else Field(v, key)
  }

  /** `v?.[0]`. */
  function OptFirst(v: Js): Js {
    match v
    case JArr(items) => if items != [] then items[0] else JUndefined
    case JObj(m) => if "0" in m then m["0"] else JUndefined
    case JStr(s) => if s != "" then JStr(s[..1]) else JUndefined
    case _ => JUndefined
  }

  // ---------------------------------------------------------------------
  // Requests and responses
  // ---------------------------------------------------------------------

  /** Something read asynchronously: either the value or the message of what was thrown. */
  datatype Incoming<T> = Read(value: T) | Threw(message: string)

  /** The two fields the handler destructures from the JSON request body. */
  datatype RequestBody = RequestBody(imageBase64: Option<string>, symptoms: Option<string>)

  datatype Request = Request(httpMethod: string, body: Incoming<RequestBody>)

  datatype Headers = Headers(allowOrigin: string, allowHeaders: string, contentType: Option<string>)

  const AllowHeaders := "authorization, x-client-info, apikey, content-type"
  const CorsHeaders := Headers("*", AllowHeaders, None)
  const JsonHeaders := Headers("*", AllowHeaders, Some("application/json"))

  datatype Body =
    | NoBody
    | ErrorBody(error: string)
    | ResultBody(diagnosis: Js, confidence: Js, riskLevel: Js, details: Js,
                 recommendations: Js, needsDoctorReview: bool)

  datatype Response = Response(status: nat, headers: Headers, body: Body)

  const MissingImageMessage := "请提供图片"
  const MissingKeyMessage := "API密钥未配置"
  const UpstreamMessage := "智能分析服务暂时不可用，请稍后重试"
  const NoResultMessage := "未能获取分析结果"
  const GenericMessage := "分析过程中发生错误"

  /** The answer to a CORS preflight request: no body, only the CORS headers. */
  const Preflight := Response(200, CorsHeaders, NoBody)

  function ErrorResponse(status: nat, message: string): Response {
    Response(status, JsonHeaders, ErrorBody(message))
  }

  /** The outer `catch`: status 500 with the exception's message, or a generic one. */
  function Crash(message: string): (r: Response)
    ensures r.status == 500 && r.body.ErrorBody? && r.body.error != ""
    ensures message != "" ==> r.body.error == message
  {
    ErrorResponse(500, if message != "" then message else GenericMessage)
  }

  // ---------------------------------------------------------------------
  // Building the model call
  // ---------------------------------------------------------------------

  const SystemPrompt := "你是一位专业的皮肤科辅助诊断助手。请分析用户上传的皮肤图片，提供专业的初步诊断意见。\n\n请严格按照以下JSON格式返回分析结果（不要包含其他文字）：\n{\n  \"diagnosis\": \"诊断名称（如：良性色素痣、疑似黑色素瘤、脂溢性角化病等）\",\n  \"confidence\": 数字（0-100的置信度百分比）,\n  \"riskLevel\": \"低风险/中风险/高风险\",\n  \"details\": [\"分析要点1\", \"分析要点2\", \"分析要点3\", \"分析要点4\"],\n  \"recommendations\": [\"建议1\", \"建议2\", \"建议3\", \"建议4\"]\n}\n\n分析时请考虑：\n1. 病变的形态、边界、颜色分布\n2. 是否存在不对称性\n3. 病变的大小和表面特征\n4. 用户提供的症状描述\n5. 潜在的风险因素\n\n重要提醒：这只是辅助诊断，最终诊断需要专业医生确认。"

  const SymptomsLead := "请分析这张皮肤图片。患者描述的症状："
  const NoSymptomsPrompt := "请分析这张皮肤图片，提供初步诊断意见。"
  const Endpoint := "https://generativelanguage.googleapis.com/v1beta/models/gemini-2.0-flash:generateContent?key="

  /** The request sent to the model: prompt parts, image and generation settings. */
  datatype ModelCall = ModelCall(
    url: string, systemPrompt: string, userMessage: string,
    mimeType: string, imageData: string, temperature: real, maxOutputTokens: nat)

  /** The user prompt: it quotes the symptoms when they are given and not empty. */
  function UserMessage(symptoms: Option<string>): (r: string)
    ensures symptoms.Some? && symptoms.value != "" ==>
              |r| == |SymptomsLead| + |symptoms.value| && r[..|SymptomsLead|] == SymptomsLead && r[|SymptomsLead|..] == symptoms.value
    ensures symptoms.None? || symptoms.value == "" ==> r == NoSymptomsPrompt
  {
    if symptoms.Some? && symptoms.value != "" then SymptomsLead + symptoms.value
    else NoSymptomsPrompt
  }

  /** A character of the regular-expression class `\w`. */
  predicate IsWordChar(c: char) {
    ('a' <= c <= 'z') || ('A' <= c <= 'Z') || ('0' <= c <= '9') || c == '_'
  }

  predicate IsWord(w: string) {
    forall i :: 0 <= i < |w| ==> IsWordChar(w[i])
  }

  /** The length of the longest run of word characters starting at `i`. */
  function WordRunLength(s: string, i: nat): (n: nat)
    requires i <= |s|
    decreases |s| - i
    ensures i + n <= |s| && forall k :: i <= k < i + n ==> IsWordChar(s[k])
    ensures i + n == |s| || !IsWordChar(s[i + n])
  {
    if i < |s| && IsWordChar(s[i]) then 1 + WordRunLength(s, i + 1) else 0
  }

  const DataImage := "data:image/"
  const Base64Marker := ";base64,"

  /** The data-URL header `data:image/<kind>;base64,` for a given kind. */
  function DataUrlHeader(kind: string): string {
    DataImage + kind + Base64Marker
  }

  /**
   * Removes a leading `data:image/<\w+>;base64,` header.  The greedy `\w+`
   * takes the whole run of word characters, and since `;` is not one no
   * shorter run can be followed by the marker.
   */
  function StripDataUrlPrefix(s: string): (r: string)
    ensures |r| <= |s| && r == s[|s| - |r|..]
    ensures r == s || exists kind :: kind != [] && IsWord(kind) && s == DataUrlHeader(kind) + r
    ensures !OccursAt(s, DataImage, 0) ==> r == s
  {
    if OccursAt(s, DataImage, 0) then
      var n := WordRunLength(s, |DataImage|);
      var m := |DataImage| + n;
      if n > 0 && OccursAt(s, Base64Marker, m) then
        var kind := s[|DataImage|..m];
        var r := s[m + |Base64Marker|..];
        assert s == DataUrlHeader(kind) + r by {
          assert s == s[..|DataImage|] + s[|DataImage|..m] + s[m..m + |Base64Marker|] + r;
        }
        r
      else s
    else s
  }

  /** Stripping the header of a well-formed data URL leaves exactly its payload. */
  lemma {:induction false} StripDataUrlRoundTrip(kind: string, payload: string)
    requires kind != [] && IsWord(kind)
    ensures StripDataUrlPrefix(DataUrlHeader(kind) + payload) == payload
  {
    var s := DataUrlHeader(kind) + payload;
    var d := |DataImage|;
    assert s[..d] == DataImage;
    assert OccursAt(s, DataImage, 0);
    var n := WordRunLength(s, d);
    assert forall k :: 0 <= k < |kind| ==> s[d + k] == kind[k];
    assert s[d + |kind|] == ';';
    assert n == |kind|;
    assert s[d + n..d + n + |Base64Marker|] == Base64Marker;
    assert s[d + n + |Base64Marker|..] == payload;
  }

  /**
   * The call made for an image and the given symptoms: the key is appended
   * to the endpoint, and the image travels without its data-URL header,
   * always labelled as JPEG, at a fixed temperature and token budget.
   */
  function MakeCall(apiKey: string, imageBase64: string, symptoms: Option<string>): (c: ModelCall)
    ensures |c.url| == |Endpoint| + |apiKey| && c.url[..|Endpoint|] == Endpoint && c.url[|Endpoint|..] == apiKey
    ensures c.imageData == StripDataUrlPrefix(imageBase64) && c.imageData == imageBase64[|imageBase64| - |c.imageData|..]
    ensures c.userMessage == UserMessage(symptoms)
    ensures c.mimeType == "image/jpeg" && c.temperature == 0.3 && c.maxOutputTokens == 1024
  {
    ModelCall(Endpoint + apiKey, SystemPrompt, UserMessage(symptoms),
              "image/jpeg", StripDataUrlPrefix(imageBase64), 0.3, 1024)
  }

  /** What the handler does before the model is contacted. */
  datatype Stage = Reply(response: Response) | CallModel(call: ModelCall)

  predicate Present(s: Option<string>) {
    s.Some? && s.value != ""
  }

  /**
   * The early part of the handler: the preflight answer, the body read, the
   * image check and the API-key check, in this order; otherwise the model call.
   */
  function Prepare(req: Request, apiKey: Option<string>): (r: Stage)
    ensures req.httpMethod == "OPTIONS" ==> r == Reply(Preflight)
    ensures req.httpMethod != "OPTIONS" && req.body.Threw? ==> r == Reply(Crash(req.body.message))
    ensures req.httpMethod != "OPTIONS" && req.body.Read? && !Present(req.body.value.imageBase64) ==>
              r == Reply(ErrorResponse(400, MissingImageMessage))
    ensures req.httpMethod != "OPTIONS" && req.body.Read? && Present(req.body.value.imageBase64) && !Present(apiKey) ==>
              r == Reply(ErrorResponse(500, MissingKeyMessage))
    ensures r.CallModel? <==>
              req.httpMethod != "OPTIONS" && req.body.Read? && Present(req.body.value.imageBase64) && Present(apiKey)
    ensures r.CallModel? ==>
              r.call.imageData == StripDataUrlPrefix(req.body.value.imageBase64.value) &&
              r.call.userMessage == UserMessage(req.body.value.symptoms) &&
              r.call.systemPrompt == SystemPrompt
    ensures r.Reply? ==> r.response.status in {200, 400, 500}
  {
    if req.httpMethod == "OPTIONS" then Reply(Preflight)
    else match req.body
      case Threw(message) => Reply(Crash(message))
      case Read(body) =>
        if !Present(body.imageBase64) then Reply(ErrorResponse(400, MissingImageMessage))
        else if !Present(apiKey) then Reply(ErrorResponse(500, MissingKeyMessage))
        else CallModel(MakeCall(apiKey.value, body.imageBase64.value, body.symptoms))
  }

  // ---------------------------------------------------------------------
  // Extracting the JSON text from the model's reply
  // ---------------------------------------------------------------------

  const Fence := "```json"
  const Ticks := "```"

  /**
   * `p` is the first opening fence and `t` the first closing fence after it:
   * the match of the regular expression /```json\s*([\s\S]*?)\s*```/.
   */
  predicate FirstFence(s: string, p: nat, t: nat) {
    && OccursAt(s, Fence, p)
    && (forall k :: 0 <= k < p ==> !OccursAt(s, Fence, k))
    && p + |Fence| <= t
    && OccursAt(s, Ticks, t)
    && (forall k :: p + |Fence| <= k < t ==> !OccursAt(s, Ticks, k))
  }

  /** The positions of the fenced block, if the reply has one. */
  function FencePositions(s: string): (r: Option<(nat, nat)>)
    ensures r.Some? ==> FirstFence(s, r.value.0, r.value.1)
    ensures r.None? ==>
              forall p, t :: OccursAt(s, Fence, p) && p + |Fence| <= t ==> !OccursAt(s, Ticks, t)
  {
    match IndexOfFrom(s, Fence, 0)
    case None => None
    case Some(p) =>
      match IndexOfFrom(s, Ticks, p + |Fence|)
      case None => None
      case Some(t) => Some((p, t))
  }

  /** A text has at most one first fence. */
  lemma FirstFenceUnique(s: string, p: nat, t: nat, p': nat, t': nat)
    requires FirstFence(s, p, t) && FirstFence(s, p', t')
    ensures p == p' && t == t'
  {
  }

  /**
   * The greedy match of /\{[\s\S]*\}/: from the first `{` to the last `}`,
   * provided the last `}` comes after the first `{`.
   */
  function BraceSpan(s: string): (r: Option<(nat, nat)>)
    ensures r.Some? ==>
              && r.value.0 < r.value.1 < |s|
              && s[r.value.0] == '{' && s[r.value.1] == '}'
              && (forall k :: 0 <= k < r.value.0 ==> s[k] != '{')
              && (forall k :: r.value.1 < k < |s| ==> s[k] != '}')
    ensures r.None? ==> forall i, j :: 0 <= i < j < |s| && s[i] == '{' ==> s[j] != '}'
  {
    var first := CharIndexFrom(s, '{', 0);
    var last := LastCharIndex(s, '}', |s|);
    if first.Some? && last.Some? && first.value < last.value then Some((first.value, last.value))
    else None
  }

  /**
   * The text handed to `JSON.parse`: the trimmed inside of the first fenced
   * `json` block, otherwise the span from the first `{` to the last `}`,
   * otherwise the whole reply.
   */
  function ExtractJson(s: string): (r: string)
    ensures FencePositions(s).Some? ==>
              var (p, t) := FencePositions(s).value;
              r == Trim(s[p + |Fence|..t])
    ensures FencePositions(s).None? && BraceSpan(s).Some? ==>
              var (i, j) := BraceSpan(s).value;
              r == s[i..j + 1] && r[0] == '{' && r[|r| - 1] == '}'
    ensures FencePositions(s).None? && BraceSpan(s).None? ==> r == s
  {
    match FencePositions(s)
    case Some((p, t)) => Trim(s[p + |Fence|..t])
    case None =>
      match BraceSpan(s)
      case Some((i, j)) => s[i..j + 1]
      case None => s
  }

  /** A JSON text wrapped in a `json` fence on lines of its own comes back unchanged. */
  lemma {:induction false} FencedRoundTrip(body: string)
    requires body == [] || (!IsSpace(body[0]) && !IsSpace(body[|body| - 1]))
    requires forall k :: !OccursAt(body, Ticks, k)
    ensures ExtractJson(Fence + "\n" + body + "\n" + Ticks) == body
  {
    var s := Fence + "\n" + body + "\n" + Ticks;
    var f := |Fence|;
    var t := |s| - |Ticks|;
    assert s[..f] == Fence;
    assert s[t..] == Ticks;
    forall k | f <= k < t
      ensures !OccursAt(s, Ticks, k)
    {
      var c := f + 1 + |body|;
      if k == f {
        assert s[k..k + 3][0] == s[f] == '\n';
      } else if k + 3 > c {
        assert s[k..k + 3][c - k] == s[c] == '\n';
      } else {
        assert s[k..k + 3] == body[k - f - 1..k - f + 2];
        assert !OccursAt(body, Ticks, k - f - 1);
      }
    }
    assert FirstFence(s, 0, t);
    var r := FencePositions(s);
    FirstFenceUnique(s, r.value.0, r.value.1, 0, t);
    assert s[f..t] == "\n" + body + "\n";
    TrimSurrounded("\n", body, "\n");
  }

  /** Chatter around a bare object, free of fences and stray braces, is dropped. */
  lemma {:induction false} BareObjectRoundTrip(before: string, obj: string, after: string)
    requires |obj| >= 2 && obj[0] == '{' && obj[|obj| - 1] == '}'
    requires forall k :: 0 <= k < |before| ==> before[k] != '{'
    requires forall k :: 0 <= k < |after| ==> after[k] != '}'
    requires forall k :: !OccursAt(before + obj + after, Fence, k)
    ensures ExtractJson(before + obj + after) == obj
  {
    var s := before + obj + after;
    var i := |before|;
    var j := |before| + |obj| - 1;
    assert s[i] == '{' && s[j] == '}';
    var r := BraceSpan(s);
    assert r.Some?;
    assert forall k :: 0 <= k < |before| ==> s[k] == before[k];
    assert forall k :: |before| + |obj| <= k < |s| ==> s[k] == after[k - |before| - |obj|];
    assert r.value == (i, j);
    assert s[i..j + 1] == obj;
  }

  // ---------------------------------------------------------------------
  // Turning the parsed value into the diagnosis
  // ---------------------------------------------------------------------

  const DefaultDiagnosis := JStr("未知")
  const DefaultConfidence := JNum(75.0)
  const DefaultRisk := JStr("中风险")
  const DefaultDetails := JArr([JStr("分析完成")])
  const DefaultRecommendations := JArr([JStr("建议咨询专业医生")])

  /** Each field of the parsed object, or its default when the field is falsy. */
  function WithDefaults(v: Js): (b: Body)
    requires !Nullish(v)
    ensures b.ResultBody? && b.needsDoctorReview
    ensures Truthy(b.diagnosis) && Truthy(b.confidence) && Truthy(b.riskLevel)
    ensures Truthy(b.details) && Truthy(b.recommendations)
    ensures Truthy(Field(v, "diagnosis")) ==> b.diagnosis == Field(v, "diagnosis")
    ensures Truthy(Field(v, "confidence")) ==> b.confidence == Field(v, "confidence")
    ensures Truthy(Field(v, "riskLevel")) ==> b.riskLevel == Field(v, "riskLevel")
    ensures Truthy(Field(v, "details")) ==> b.details == Field(v, "details")
    ensures Truthy(Field(v, "recommendations")) ==> b.recommendations == Field(v, "recommendations")
    ensures !Truthy(Field(v, "diagnosis")) ==> b.diagnosis == DefaultDiagnosis
    ensures !Truthy(Field(v, "confidence")) ==> b.confidence == DefaultConfidence
    ensures !Truthy(Field(v, "riskLevel")) ==> b.riskLevel == DefaultRisk
    ensures !Truthy(Field(v, "details")) ==> b.details == DefaultDetails
    ensures !Truthy(Field(v, "recommendations")) ==> b.recommendations == DefaultRecommendations
  {
    ResultBody(
      OrElse(Field(v, "diagnosis"), DefaultDiagnosis),
      OrElse(Field(v, "confidence"), DefaultConfidence),
      OrElse(Field(v, "riskLevel"), DefaultRisk),
      OrElse(Field(v, "details"), DefaultDetails),
      OrElse(Field(v, "recommendations"), DefaultRecommendations),
      true)
  }

  const FallbackDiagnosis := "需要专业医生评估"
  const FallbackNotice := "智能分析已完成，但结果需要医生确认"
  const FallbackRecommendations := ["建议尽快咨询专业皮肤科医生", "保持病变部位清洁", "避免抓挠或刺激病变区域"]

  /** The fixed result used when the reply cannot be read as a diagnosis. */
  function Fallback(reply: string): (b: Body)
    ensures b.ResultBody? && b.needsDoctorReview
    ensures b.confidence == JNum(70.0) && b.riskLevel == JStr("中风险")
    ensures b.details.JArr? && |b.details.items| == 2 && b.details.items[0] == JStr(FallbackNotice)
    ensures b.details.items[1].JStr? && b.details.items[1].s <= reply
    ensures |b.details.items[1].s| == if |reply| < 200 then |reply| else 200
    ensures b.diagnosis == JStr(FallbackDiagnosis)
    ensures b.recommendations == JArr([JStr(FallbackRecommendations[0]), JStr(FallbackRecommendations[1]),
                                       JStr(FallbackRecommendations[2])])
  {
    ResultBody(
      JStr(FallbackDiagnosis),
      JNum(70.0),
      JStr("中风险"),
      JArr([JStr(FallbackNotice), JStr(Prefix(reply, 200))]),
      JArr([JStr(FallbackRecommendations[0]), JStr(FallbackRecommendations[1]),
            JStr(FallbackRecommendations[2])]),
      true)
  }

  /**
   * The inner `try`: parse the extracted text and apply the defaults.  A parse
   * failure, or a parsed `null` whose field read throws, gives the fallback.
   */
  function Interpret(reply: string, parse: string -> Option<Js>): (b: Body)
    ensures b.ResultBody? && b.needsDoctorReview
    ensures parse(ExtractJson(reply)).None? ==> b == Fallback(reply)
    ensures parse(ExtractJson(reply)).Some? && Nullish(parse(ExtractJson(reply)).value) ==> b == Fallback(reply)
    ensures parse(ExtractJson(reply)).Some? && !Nullish(parse(ExtractJson(reply)).value) ==>
              b == WithDefaults(parse(ExtractJson(reply)).value)
  {
    match parse(ExtractJson(reply))
    case None => Fallback(reply)
    case Some(v) => if Nullish(v) then Fallback(reply) else WithDefaults(v)
  }

  /** A parsed confidence of 0 is reported as 75; a non-zero one is passed on unclamped. */
  lemma ConfidenceDefaulting(reply: string, parse: string -> Option<Js>, fields: map<string, Js>, c: real)
    requires parse(ExtractJson(reply)) == Some(JObj(fields))
    requires "confidence" in fields && fields["confidence"] == JNum(c)
    ensures c == 0.0 ==> Interpret(reply, parse).confidence == JNum(75.0)
    ensures c != 0.0 ==> Interpret(reply, parse).confidence == JNum(c)
  {
    var v := JObj(fields);
    assert Interpret(reply, parse) == WithDefaults(v);
    assert Field(v, "confidence") == JNum(c);
  }

  // ---------------------------------------------------------------------
  // The model's answer and the whole handler
  // ---------------------------------------------------------------------

  /** How the HTTP exchange with the model ended. */
  datatype Upstream =
    | Rejected(message: string)                // fetch threw
    | NotOk(status: nat, errorText: Incoming<string>)  // response.ok was false; response.text()
    | Answered(data: Incoming<Js>)             // response.json()

  /** `data.candidates?.[0]?.content?.parts?.[0]?.text`; `None` when `data` is nullish. */
  function CandidateText(data: Js): (r: Option<Js>)
    ensures r.None? <==> Nullish(data)
  {
    if Nullish(data) then None
    else Some(OptField(OptFirst(OptField(OptField(OptFirst(Field(data, "candidates")), "content"), "parts")), "text"))
  }

  /** The text of the first part of the first candidate is what the chain reads. */
  lemma CandidateTextFound(t: Js)
    ensures CandidateText(JObj(map["candidates" := JArr([JObj(map["content" :=
              JObj(map["parts" := JArr([JObj(map["text" := t])])])])])])) == Some(t)
  {
    var part := JObj(map["text" := t]);
    var content := JObj(map["parts" := JArr([part])]);
    var candidate := JObj(map["content" := content]);
    var data := JObj(map["candidates" := JArr([candidate])]);
    assert Field(data, "candidates") == JArr([candidate]);
    assert OptField(candidate, "content") == content;
    assert OptField(content, "parts") == JArr([part]);
    assert OptField(part, "text") == t;
  }

  /** A reply without candidates, or with an empty list of them, reads as `undefined`. */
  lemma CandidateTextMissing(fields: map<string, Js>)
    requires "candidates" !in fields || fields["candidates"] == JArr([])
    ensures CandidateText(JObj(fields)) == Some(JUndefined)
  {
    assert OptFirst(Field(JObj(fields), "candidates")) == JUndefined;
  }

  /** A candidate whose content has no parts reads as `undefined`. */
  lemma CandidateTextNoParts(content: map<string, Js>)
    requires "parts" !in content
    ensures CandidateText(JObj(map["candidates" := JArr([JObj(map["content" := JObj(content)])])])) == Some(JUndefined)
  {
    var candidate := JObj(map["content" := JObj(content)]);
    var data := JObj(map["candidates" := JArr([candidate])]);
    assert Field(data, "candidates") == JArr([candidate]);
    assert OptField(candidate, "content") == JObj(content);
  }

  /** The rest of the handler once the model call has been made. */
  function Finish(up: Upstream, parse: string -> Option<Js>, typeError: string): (r: Response)
    ensures r.status in {200, 500}
    ensures r.status == 200 <==> r.body.ResultBody?
    ensures r.body.ResultBody? ==> r.body.needsDoctorReview
    ensures up.Rejected? ==> r == Crash(up.message)
    ensures up.NotOk? && up.errorText.Read? ==> r == ErrorResponse(500, UpstreamMessage)
    ensures up.NotOk? && up.errorText.Threw? ==> r == Crash(up.errorText.message)
    ensures up.Answered? && up.data.Threw? ==> r == Crash(up.data.message)
    ensures up.Answered? && up.data.Read? && Nullish(up.data.value) ==> r == Crash(typeError)
    ensures up.Answered? && up.data.Read? && CandidateText(up.data.value).Some? ==>
              var text := CandidateText(up.data.value).value;
              && (!Truthy(text) ==> r == ErrorResponse(500, NoResultMessage))
              && (Truthy(text) && text.JStr? ==> r == Response(200, JsonHeaders, Interpret(text.s, parse)))
              && (Truthy(text) && !text.JStr? ==> r == Crash(typeError))
  {
    match up
    case Rejected(message) => Crash(message)
    case NotOk(_, Threw(message)) => Crash(message)
    case NotOk(_, Read(_)) => ErrorResponse(500, UpstreamMessage)
    case Answered(Threw(message)) => Crash(message)
    case Answered(Read(data)) =>
      match CandidateText(data)
      case None => Crash(typeError)
      case Some(text) =>
        if !Truthy(text) then ErrorResponse(500, NoResultMessage)
        // `.match` on a non-string throws, and so does `.substring` in the inner catch
        else if !text.JStr? then Crash(typeError)
        else Response(200, JsonHeaders, Interpret(text.s, parse))
  }

  /** A response together with the calls made to the model while producing it. */
  datatype Outcome = Outcome(response: Response, calls: seq<ModelCall>)

  /** The whole request handler. */
  function Handle(req: Request, apiKey: Option<string>, gemini: ModelCall -> Upstream,
                  parse: string -> Option<Js>, typeError: string): (o: Outcome)
    ensures |o.calls| <= 1
    ensures o.calls != [] <==> Prepare(req, apiKey).CallModel?
    ensures o.calls != [] ==>
              o.calls == [Prepare(req, apiKey).call] && o.response == Finish(gemini(o.calls[0]), parse, typeError)
    ensures Prepare(req, apiKey).Reply? ==> o.response == Prepare(req, apiKey).response
    ensures req.httpMethod == "OPTIONS" ==> o == Outcome(Preflight, [])
    ensures req.httpMethod != "OPTIONS" && req.body.Read? && !Present(req.body.value.imageBase64) ==>
              o == Outcome(ErrorResponse(400, MissingImageMessage), [])
    ensures o.calls != [] ==>
              && req.body.Read? && Present(req.body.value.imageBase64)
              && o.calls[0].imageData == StripDataUrlPrefix(req.body.value.imageBase64.value)
    ensures o.response.status in {200, 400, 500}
    ensures o.response.body.ResultBody? ==> o.response.status == 200 && o.calls != [] && o.response.body.needsDoctorReview
    ensures o.response.status == 200 ==> o.response == Preflight || o.response.body.ResultBody?
  {
    match Prepare(req, apiKey)
    case Reply(response) => Outcome(response, [])
    case CallModel(call) => Outcome(Finish(gemini(call), parse, typeError), [call])
  }
}
