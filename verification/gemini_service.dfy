/** The analysis gateway adapter (services/geminiService.ts): turns the
    outcome of asking the language model about a scan into a summary and an
    action map keyed by material id, and never fails. The model itself, the
    prompt and the client library stay outside; their outcome arrives as a
    `GeminiReply`, and JSON.parse arrives as the function `parse`. */
module GeminiService {
  import opened Wrappers
  import opened Types
  import opened Decimal
  import opened Fence

  /** A value thrown inside the adapter: an Error with its message, or anything else. */
  datatype Thrown = ErrorValue(message: string) | NonErrorValue

  /** What reaching the model produced: no API key configured (the client
      constructor throws), a rejected call, or the reply's text, empty when
      the reply carried none. */
  datatype GeminiReply = ClientMissing | CallFails(thrown: Thrown) | Text(body: string)

  /** The parts of a parsed reply the adapter reads. JsonNull is the literal
      null; JsonObject stands for every other parsed value: `summary` is the
      summary field when it is a string (None when absent or not a string),
      and `actionItems` lists the entries of the actionItems field in
      enumeration order with each value already converted to a string
      (empty when the field is absent or falsy). */
  datatype JsonValue =
    | JsonNull
    | JsonObject(summary: Option<string>, actionItems: seq<(string, string)>)

  /** The adapter's answer: a summary and advice keyed by material id. */
  datatype AnalysisResult = AnalysisResult(summary: string, actionItems: map<int, string>)

  const ApiKeyMissing: string := "API_KEY not found in environment"
  const EmptyResponse: string := "Empty response from Gemini"
  const InvalidJsonResponse: string := "Invalid JSON response from Gemini"
  const InvalidJsonStructure: string := "Invalid JSON structure in response"
  /** The TypeError reading a property of null raises. */
  const NullResultMessage: string := "Cannot read properties of null (reading 'actionItems')"
  const UnknownError: string := "Unknown error"
  const UnavailableMarker: string := "(AI Analysis unavailable: "

  /** The text a thrown value contributes to the fallback summary. */
  function MessageOf(e: Thrown): (r: string)
    ensures e.ErrorValue? ==> r == e.message
    ensures e.NonErrorValue? ==> r == UnknownError
  {
    match e
    case ErrorValue(m) => m
    case NonErrorValue => UnknownError
  }

  /** Summary when the scan found no transitions. */
  function NoChangesSummary(totalScanned: nat): (r: string)
    ensures |r| > 8 + |NatToString(totalScanned)|
    ensures r[..8] == "Scanned " && r[8..8 + |NatToString(totalScanned)|] == NatToString(totalScanned)
  {
    "Scanned " + NatToString(totalScanned)
    + " materials. No status changes detected. All certificates are within their current validity parameters."
  }

  /** Summary when the model could not be used, carrying the reason. */
  function FallbackSummary(totalScanned: nat, updates: nat, reason: string): (r: string)
    ensures |r| > 8 + |NatToString(totalScanned)|
    ensures r[..8] == "Scanned " && r[8..8 + |NatToString(totalScanned)|] == NatToString(totalScanned)
  {
    "Scanned " + NatToString(totalScanned) + " materials. Found " + NatToString(updates)
    + " status updates. " + UnavailableMarker + reason + ")"
  }

  /** Summary used when a parsed reply has no usable summary. */
  function DefaultSummary(updates: nat): (r: string)
    ensures |r| > 16 + |NatToString(updates)|
    ensures r[..16] == "Scan completed. " && r[16..16 + |NatToString(updates)|] == NatToString(updates)
  {
    "Scan completed. " + NatToString(updates) + " items updated."
  }

  /** The degraded answer: fallback summary, no advice. */
  function Unavailable(totalScanned: nat, updates: nat, reason: string): AnalysisResult
  {
    AnalysisResult(FallbackSummary(totalScanned, updates, reason), map[])
  }

  /** The default summary of a parsed reply differs from every no-change
      and every fallback summary: it never reads "Scanned ...". */
  lemma DefaultSummaryIsDistinct(updates: nat, totalScanned: nat, otherUpdates: nat, reason: string)
    ensures DefaultSummary(updates) != NoChangesSummary(totalScanned)
    ensures DefaultSummary(updates) != FallbackSummary(totalScanned, otherUpdates, reason)
  {
    var d := DefaultSummary(updates);
    assert d[..16][4] == ' ';
    assert NoChangesSummary(totalScanned)[..8][4] == 'n';
    assert FallbackSummary(totalScanned, otherUpdates, reason)[..8][4] == 'n';
  }

  /** The fallback summary prints the number of updates right after
      "Scanned N materials. Found ". */
  lemma FallbackSummaryShowsUpdates(totalScanned: nat, updates: nat, reason: string)
    ensures var r := FallbackSummary(totalScanned, updates, reason);
      var w := 26 + |NatToString(totalScanned)|;
      |r| > w + |NatToString(updates)| && r[w..w + |NatToString(updates)|] == NatToString(updates)
  {
    var n := NatToString(totalScanned);
    var m := NatToString(updates);
    var head := "Scanned " + n + " materials. Found ";
    var r := FallbackSummary(totalScanned, updates, reason);
    assert r == head + m + (" status updates. " + UnavailableMarker + reason + ")");
    assert |head| == 26 + |n|;
  }

  /** A no-change summary is never a degraded one: the first ends with '.',
      the second with ')'. */
  lemma NoChangesIsNotFallback(totalScanned: nat, otherScanned: nat, updates: nat, reason: string)
    ensures NoChangesSummary(totalScanned) != FallbackSummary(otherScanned, updates, reason)
  {
    var a := NoChangesSummary(totalScanned);
    var b := FallbackSummary(otherScanned, updates, reason);
    assert a[|a| - 1] == '.';
    assert b[|b| - 1] == ')';
  }

  /** The fallback summary ends with the marker, the reason and a closing
      parenthesis, so the reason can be read back from it. */
  lemma FallbackSummaryEndsWithReason(totalScanned: nat, updates: nat, reason: string)
    ensures var s := FallbackSummary(totalScanned, updates, reason);
      |s| > |UnavailableMarker + reason + ")"| &&
      s[|s| - |UnavailableMarker + reason + ")"|..] == UnavailableMarker + reason + ")"
  {
    var head := "Scanned " + NatToString(totalScanned) + " materials. Found " + NatToString(updates)
      + " status updates. ";
    assert FallbackSummary(totalScanned, updates, reason) == head + (UnavailableMarker + reason + ")");
  }

  /** Different reasons give different fallback summaries. */
  lemma FallbackSummaryDeterminesReason(totalScanned: nat, updates: nat, a: string, b: string)
    requires FallbackSummary(totalScanned, updates, a) == FallbackSummary(totalScanned, updates, b)
    ensures a == b
  {
    var head := "Scanned " + NatToString(totalScanned) + " materials. Found " + NatToString(updates)
      + " status updates. " + UnavailableMarker;
    assert FallbackSummary(totalScanned, updates, a) == head + (a + ")");
    assert FallbackSummary(totalScanned, updates, b) == head + (b + ")");
    assert a + ")" == (head + (a + ")"))[|head|..];
    assert a == (a + ")")[..|a|];
    assert b == (b + ")")[..|b|];
  }

  /** Key coercion of the action map: a key made only of decimal digits reads
      as that number (the empty key as zero); any other key is dropped. */
  function ParseKey(key: string): (r: Option<int>)
    ensures r.Some? <==> AllDigits(key)
    ensures r.Some? ==> 0 <= r.value
  {
    if AllDigits(key) then Some(DigitsValue(key)) else None
  }

  /** A material id written in decimal is read back as that id. */
  lemma ParseKeyOfRendered(n: nat)
    ensures ParseKey(NatToString(n)) == Some(n)
  {
    DigitsValueOfNatToString(n);
  }

  /** No entry after position `i` has a key that coerces to `n`. */
  predicate NotOverriddenAfter(entries: seq<(string, string)>, i: int, n: int)
  {
    forall j :: 0 <= j < |entries| && i < j ==> ParseKey(entries[j].0) != Some(n)
  }

  /** The action map built from the reply's entries in order: entries whose
      key coerces to a number are kept under that number, a later entry for
      the same number replacing an earlier one; other entries are dropped. */
  function NormalizeActionItems(entries: seq<(string, string)>): (r: map<int, string>)
    ensures forall n :: n in r ==> 0 <= n
    decreases |entries|
  {
    if |entries| == 0 then map[]
    else
      var earlier := NormalizeActionItems(entries[..|entries| - 1]);
      var last := entries[|entries| - 1];
      match ParseKey(last.0)
      case Some(n) => earlier[n := last.1]
      case None => earlier
  }

  /** Looking up one id in the normalised map: it is present exactly when
      some entry's key coerces to it, and then it holds the value of the last
      such entry. */
  lemma {:induction false} NormalizeLookup(entries: seq<(string, string)>, n: int)
    ensures n in NormalizeActionItems(entries) <==>
      exists i :: 0 <= i < |entries| && ParseKey(entries[i].0) == Some(n)
    ensures n in NormalizeActionItems(entries) ==>
      exists i :: 0 <= i < |entries| && ParseKey(entries[i].0) == Some(n)
        && NormalizeActionItems(entries)[n] == entries[i].1 && NotOverriddenAfter(entries, i, n)
    decreases |entries|
  {
    if |entries| > 0 {
      var init := entries[..|entries| - 1];
      var last := |entries| - 1;
      NormalizeLookup(init, n);
      assert forall i :: 0 <= i < |init| ==> init[i] == entries[i];
      if ParseKey(entries[last].0) == Some(n) {
        assert NotOverriddenAfter(entries, last, n);
      } else if n in NormalizeActionItems(init) {
        var i :| 0 <= i < |init| && ParseKey(init[i].0) == Some(n)
          && NormalizeActionItems(init)[n] == init[i].1 && NotOverriddenAfter(init, i, n);
        assert NotOverriddenAfter(entries, i, n);
      }
    }
  }

  /** A reply whose keys are all non-numeric yields no advice. */
  lemma {:induction false} NormalizeDropsNonNumericKeys(entries: seq<(string, string)>)
    requires forall i :: 0 <= i < |entries| ==> !AllDigits(entries[i].0)
    ensures NormalizeActionItems(entries) == map[]
  {
    if |entries| > 0 {
      NormalizeDropsNonNumericKeys(entries[..|entries| - 1]);
    }
  }

  /** The worked example: the numeric key is kept, the other dropped. */
  lemma NormalizeExample()
    ensures NormalizeActionItems([("101", "renew now"), ("abc", "x")]) == map[101 := "renew now"]
  {
    var entries := [("101", "renew now"), ("abc", "x")];
    assert ParseKey("abc") == None by {
      assert !IsDigit("abc"[0]);
    }
    assert ParseKey("101") == Some(101) by {
      assert "101"[..2] == "10";
      assert "10"[..1] == "1";
      assert "1"[..0] == "";
    }
    assert entries[..1] == [("101", "renew now")];
    assert entries[..1][..0] == [];
  }

  /** Reading a reply body: parse it as it is; failing that, parse the
      first fenced JSON block; with no block, or a block that does not parse,
      fail with the respective message. */
  function Decode(body: string, parse: string -> Option<JsonValue>): (r: Result<JsonValue, string>)
    ensures parse(body).Some? ==> r == Success(parse(body).value)
    ensures parse(body).None? && ExtractFence(body).None? ==> r == Failure(InvalidJsonResponse)
    ensures parse(body).None? && ExtractFence(body).Some? ==>
      r == if parse(ExtractFence(body).value).Some?
           then Success(parse(ExtractFence(body).value).value)
           else Failure(InvalidJsonStructure)
  {
    match parse(body)
    case Some(v) => Success(v)
    case None =>
      match ExtractFence(body)
      case None => Failure(InvalidJsonResponse)
      case Some(inner) =>
        match parse(inner)
        case Some(v) => Success(v)
        case None => Failure(InvalidJsonStructure)
  }

  /** A reply that is not JSON as a whole but wraps valid JSON in a fenced
      block after some prose is read through the block, provided the prose
      holds no opener, the JSON holds no closer and is not bounded by
      whitespace, and each fence line ends with one line break. */
  lemma DecodeFencedReply(prose: string, json: string, rest: string, parse: string -> Option<JsonValue>)
    requires forall y: nat :: !OccursAt(prose, Opener, y)
    requires forall y: nat :: !OccursAt(json, Closer, y)
    requires json == [] || (!IsJsWhitespace(json[0]) && !IsJsWhitespace(json[|json| - 1]))
    requires parse(prose + Opener + "\n" + json + "\n" + Closer + rest).None?
    requires parse(json).Some?
    ensures Decode(prose + Opener + "\n" + json + "\n" + Closer + rest, parse) == Success(parse(json).value)
  {
    ExtractFenceOfFencedBody(prose, json, rest);
  }

  /** Decoding fails exactly when neither the body nor its first fenced block parses. */
  lemma DecodeFailsIff(body: string, parse: string -> Option<JsonValue>)
    ensures Decode(body, parse).Failure? <==>
      parse(body).None? && (ExtractFence(body).None? || parse(ExtractFence(body).value).None?)
  {
  }

  /** The part of the adapter that runs on the reply's text: an empty text
      fails, a decoded null fails on its first field access, and a decoded
      value gives its summary (or the default when that is missing or empty)
      and its normalised advice. */
  function AnalyseText(totalScanned: nat, updates: nat, body: string,
                       parse: string -> Option<JsonValue>): (r: AnalysisResult)
    ensures r.summary != ""
    ensures body == "" ==> r == Unavailable(totalScanned, updates, EmptyResponse)
    ensures body != "" && Decode(body, parse).Failure? ==>
      r == Unavailable(totalScanned, updates, Decode(body, parse).error)
    ensures body != "" && Decode(body, parse) == Success(JsonNull) ==>
      r == Unavailable(totalScanned, updates, NullResultMessage)
    ensures body != "" && Decode(body, parse).Success? && Decode(body, parse).value.JsonObject? ==>
      var v := Decode(body, parse).value;
      && r.actionItems == NormalizeActionItems(v.actionItems)
      && r.summary == (if v.summary == None || v.summary == Some("") then DefaultSummary(updates)
                       else v.summary.value)
  {
    if body == "" then Unavailable(totalScanned, updates, EmptyResponse)
    else
      match Decode(body, parse)
      case Failure(reason) => Unavailable(totalScanned, updates, reason)
      case Success(JsonNull) => Unavailable(totalScanned, updates, NullResultMessage)
      case Success(JsonObject(summary, items)) =>
        var text := if summary.Some? && summary.value != "" then summary.value else DefaultSummary(updates);
        AnalysisResult(text, NormalizeActionItems(items))
  }

  /** The adapter. The client is obtained before the empty-list shortcut, so
      a missing API key degrades even a scan with no transitions; with a
      client and no transitions the model is not consulted; every failure
      becomes the fallback summary with no advice. */
  function GenerateScanSummary(totalScanned: nat, updated: seq<ScanResultDetail>, reply: GeminiReply,
                               parse: string -> Option<JsonValue>): (r: AnalysisResult)
    ensures r.summary != ""
    ensures reply.ClientMissing? ==> r == Unavailable(totalScanned, |updated|, ApiKeyMissing)
    ensures !reply.ClientMissing? && |updated| == 0 ==>
      r == AnalysisResult(NoChangesSummary(totalScanned), map[])
    ensures reply.CallFails? && |updated| > 0 ==>
      r == Unavailable(totalScanned, |updated|, MessageOf(reply.thrown))
    ensures reply.Text? && |updated| > 0 ==> r == AnalyseText(totalScanned, |updated|, reply.body, parse)
    ensures r.actionItems != map[] ==>
      reply.Text? && |updated| > 0 && Decode(reply.body, parse).Success?
  {
    if reply.ClientMissing? then Unavailable(totalScanned, |updated|, ApiKeyMissing)
    else if |updated| == 0 then AnalysisResult(NoChangesSummary(totalScanned), map[])
    else if reply.CallFails? then Unavailable(totalScanned, |updated|, MessageOf(reply.thrown))
    else AnalyseText(totalScanned, |updated|, reply.body, parse)
  }

  /** With a client and no transitions the answer does not depend on what
      the model would have said: the model is not consulted. */
  lemma NoTransitionsSkipsModel(totalScanned: nat, a: GeminiReply, b: GeminiReply,
                                parseA: string -> Option<JsonValue>, parseB: string -> Option<JsonValue>)
    requires !a.ClientMissing? && !b.ClientMissing?
    ensures GenerateScanSummary(totalScanned, [], a, parseA) == GenerateScanSummary(totalScanned, [], b, parseB)
  {
  }

  /** Every answer is the shortcut, a degraded answer with a reason, or the
      reading of a decoded reply (its normalised advice, and its own summary
      or the default one): the adapter never fails. */
  lemma AnswerIsOneOfThree(totalScanned: nat, updated: seq<ScanResultDetail>, reply: GeminiReply,
                           parse: string -> Option<JsonValue>)
    ensures var r := GenerateScanSummary(totalScanned, updated, reply, parse);
      || r == AnalysisResult(NoChangesSummary(totalScanned), map[])
      || (exists reason :: r == Unavailable(totalScanned, |updated|, reason))
      || (&& reply.Text? && |updated| > 0
          && Decode(reply.body, parse).Success? && Decode(reply.body, parse).value.JsonObject?
          && r.actionItems == NormalizeActionItems(Decode(reply.body, parse).value.actionItems)
          && (r.summary == DefaultSummary(|updated|) || Some(r.summary) == Decode(reply.body, parse).value.summary))
  {
    var r := GenerateScanSummary(totalScanned, updated, reply, parse);
    if reply.ClientMissing? {
      assert r == Unavailable(totalScanned, |updated|, ApiKeyMissing);
    } else if |updated| > 0 && reply.CallFails? {
      assert r == Unavailable(totalScanned, |updated|, MessageOf(reply.thrown));
    } else if |updated| > 0 && reply.Text? {
      if reply.body == "" {
        assert r == Unavailable(totalScanned, |updated|, EmptyResponse);
      } else if Decode(reply.body, parse).Failure? {
        assert r == Unavailable(totalScanned, |updated|, Decode(reply.body, parse).error);
      } else if Decode(reply.body, parse).value == JsonNull {
        assert r == Unavailable(totalScanned, |updated|, NullResultMessage);
      }
    }
  }
}
