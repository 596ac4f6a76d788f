/** `format_model_display`: one catalog record to the record a UI shows, with
    the heuristic that decides whether a model is marked as able to call tools. */
module ModelDisplay {
  import opened Text
  import opened Values

  // ---------------------------------------------------------------------------
  // Tool capability
  // ---------------------------------------------------------------------------

  /** Fragments of model ids known to support tool calling, lower case. */
  const ToolPatterns: seq<string> := [
    "gpt-4o", "gpt-4-turbo", "gpt-4", "gpt-3.5-turbo",
    "claude-3", "claude-3.5", "gemini-1.5", "gemini-pro",
    "llama-3.1", "llama-3.2", "mistral-large", "mixtral"
  ]

  /** The wrench marker and its trailing space. */
  const ToolMarker: string := "\U{1F527} "

  /** The id, lower-cased, contains one of the patterns. An id that is not a
      string never matches: `lower()` raises, and the handler around the
      heuristic swallows the error. */
  predicate MatchesToolPattern(id: Value)
  {
    id.Str? && exists k | 0 <= k < |ToolPatterns| :: Occurs(Lower(id.s), ToolPatterns[k])
  }

  function SupportsToolsFlag(model: Record): Value
  {
    Get(model, "supports_tools", Bool(false))
  }

  function FunctionCallingFlag(model: Record): Value
  {
    Get(model, "supports_function_calling", Bool(false))
  }

  /** The model is marked: a truthy explicit flag, or an id that matches. */
  predicate ToolCapable(model: Record)
  {
    || Truthy(SupportsToolsFlag(model))
    || Truthy(FunctionCallingFlag(model))
    || ("id" in model && MatchesToolPattern(model["id"]))
  }

  /** The `supports_tools` the formatter reports when the indicator is asked
      for: the model's own flag, replaced by `True` only when both explicit
      flags are falsy and the id matches a pattern. */
  function ReportedSupportsTools(model: Record): Value
  {
    if !Truthy(SupportsToolsFlag(model)) && !Truthy(FunctionCallingFlag(model))
       && "id" in model && MatchesToolPattern(model["id"])
    then Bool(true)
    else SupportsToolsFlag(model)
  }

  /** The marker is shown exactly when the reported `supports_tools` or the
      function-calling flag is truthy, and a truthy function-calling flag
      leaves the model's own `supports_tools` value in place. */
  lemma MarkerAgreesWithReport(model: Record)
    ensures ToolCapable(model) <==> Truthy(ReportedSupportsTools(model)) || Truthy(FunctionCallingFlag(model))
    ensures Truthy(FunctionCallingFlag(model)) ==> ReportedSupportsTools(model) == SupportsToolsFlag(model)
    ensures Truthy(SupportsToolsFlag(model)) ==> ReportedSupportsTools(model) == model["supports_tools"]
  {
  }

  /** Matching ignores case: an id with a pattern inside it in any mix of
      upper and lower case letters matches. */
  lemma PatternMatchIgnoresCase(x: string, w: string, y: string, k: nat)
    requires k < |ToolPatterns| && Lower(w) == ToolPatterns[k]
    ensures MatchesToolPattern(Str(x + w + y))
  {
    OccursInLowered(x, w, y, ToolPatterns[k]);
  }

  /** Ids that lower-case alike are treated alike. */
  lemma PatternMatchUpToCase(s: string, t: string)
    requires Lower(s) == Lower(t)
    ensures MatchesToolPattern(Str(s)) == MatchesToolPattern(Str(t))
    ensures MatchesToolPattern(Str(s)) == MatchesToolPattern(Str(Lower(s)))
  {
    LowerIdempotent(s);
  }

  /** A model with no explicit flags whose id holds a pattern, in any case, is
      marked, and reported as supporting tools. */
  lemma MatchWithoutFlags(model: Record, x: string, w: string, y: string, k: nat)
    requires k < |ToolPatterns| && Lower(w) == ToolPatterns[k]
    requires "id" in model && model["id"] == Str(x + w + y)
    requires "supports_tools" !in model && "supports_function_calling" !in model
    ensures ToolCapable(model) && ReportedSupportsTools(model) == Bool(true)
  {
    PatternMatchIgnoresCase(x, w, y, k);
  }

  /** The sixth fragment is `claude-3.5`, already in lower case. Kept apart
      from the lemma below, whose record literal makes this costly in place. */
  lemma ClaudePatternLower()
    ensures ToolPatterns[5] == "claude-3.5" && Lower("claude-3.5") == "claude-3.5"
  {
  }

  /** A Claude 3.5 model with no explicit flags is marked and reported as
      supporting tools, through the `claude-3.5` fragment. */
  lemma ClaudeMatchesByName(model: Record)
    requires model == map["id" := Str("anthropic/claude-3.5-sonnet")]
    ensures ToolCapable(model) && ReportedSupportsTools(model) == Bool(true)
  {
    ClaudePatternLower();
    assert "anthropic/claude-3.5-sonnet" == "anthropic/" + "claude-3.5" + "-sonnet";
    MatchWithoutFlags(model, "anthropic/", "claude-3.5", "-sonnet", 5);
  }

  /** No pattern is shorter than five characters, so a shorter id never
      matches, and without flags such a model is not marked. */
  lemma ShortIdNeverMatches(model: Record)
    requires "id" in model && model["id"].Str? && |model["id"].s| < 5
    requires "supports_tools" !in model && "supports_function_calling" !in model
    ensures !ToolCapable(model) && ReportedSupportsTools(model) == Bool(false)
  {
  }

  // ---------------------------------------------------------------------------
  // Context length
  // ---------------------------------------------------------------------------

  const UnknownContext: string := "Unknown ctx"

  /** `isinstance(v, (int, float)) and v > 0`; a bool is an int here. */
  predicate IsPositiveNumber(v: Value)
  {
    match v
    case Bool(b) => b
    case Int(i) => i > 0
    case Float(f) => (f.Finite? && f.x > 0.0) || f == Infinity(false)
    case _ => false
  }

  /** `int(v) == n` for a positive number `v`: an integer as it is, `True`
      as 1, a finite float its integer part (for a positive float, the floor). */
  predicate TruncatesTo(v: Value, n: nat)
  {
    match v
    case Bool(b) => n == 1
    case Int(i) => n == i
    case Float(f) => f.Finite? && n as real <= f.x < n as real + 1.0
    case _ => false
  }

  /** What a grouped numeral followed by " ctx" is made of. */
  lemma GroupedContext(n: nat)
    ensures var t := GroupThousands(n) + " ctx";
      && |t| > 4 && t[|t| - 4..] == " ctx" && t != UnknownContext
      && CommaGrouped(t[..|t| - 4])
      && IsDigit(t[0]) && (n > 0 ==> t[0] != '0') && (n == 0 ==> t == "0 ctx")
      && AllDigits(RemoveCommas(t[..|t| - 4])) && ParseDecimal(RemoveCommas(t[..|t| - 4])) == n
  {
    var g := GroupThousands(n);
    var t := g + " ctx";
    GroupThousandsShape(n);
    GroupThousandsUngroups(n);
    DecimalRoundTrip(n);
    assert t[..|t| - 4] == g;
    assert t[0] == g[0];
  }

  /** The `context_str` of a `context_length` value. A positive number is cut
      to an integer and written with its thousands grouped; `int(inf)` raises
      OverflowError; every other value gives "Unknown ctx". */
  function ContextLengthText(v: Value): (r: Result<string>)
    ensures r.Err? <==> v == Float(Infinity(false))
    ensures r.Err? ==> r.error == OverflowError
    ensures r.Ok? ==> (r.value == UnknownContext <==> !IsPositiveNumber(v))
    ensures r.Ok? && IsPositiveNumber(v) ==> var t := r.value;
      && |t| > 4 && t[|t| - 4..] == " ctx"
      && CommaGrouped(t[..|t| - 4])
      && IsDigit(t[0]) && (t[0] != '0' || t == "0 ctx")
      && AllDigits(RemoveCommas(t[..|t| - 4]))
      && TruncatesTo(v, ParseDecimal(RemoveCommas(t[..|t| - 4])))
  {
    match v
    case Bool(b) =>
      GroupedContext(1);
      Ok(if b then GroupThousands(1) + " ctx" else UnknownContext)
    case Int(i) =>
      if i > 0 then GroupedContext(i); Ok(GroupThousands(i) + " ctx") else Ok(UnknownContext)
    case Float(f) =>
      (match f
       case Finite(x) =>
         if x > 0.0 then GroupedContext(x.Floor); Ok(GroupThousands(x.Floor) + " ctx") else Ok(UnknownContext)
       case Infinity(negative) => if negative then Ok(UnknownContext) else Err(OverflowError)
       case NaN => Ok(UnknownContext))
    case _ => Ok(UnknownContext)
  }

  /** 128000 tokens of context read "128,000 ctx". */
  lemma ContextLengthExample()
    ensures ContextLengthText(Int(128000)) == Ok("128,000 ctx")
  {
    assert 128000 / 1000 == 128 && 128000 % 1000 == 0;
    assert Decimal(1) == "1";
    assert Decimal(12) == Decimal(1) + [DigitChar(2)] == "12";
    assert Decimal(128) == Decimal(12) + [DigitChar(8)] == "128";
    assert Pad3(0) == "000";
    assert GroupThousands(128000) == "128" + "," + "000";
    assert ContextLengthText(Int(128000)) == Ok(GroupThousands(128000) + " ctx");
    assert "128" + "," + "000" + " ctx" == "128,000 ctx";
  }

  // ---------------------------------------------------------------------------
  // The display record
  // ---------------------------------------------------------------------------

  /** The dict `format_model_display` returns; `supportsTools` is `Null` when
      the indicator was not asked for. */
  datatype DisplayRecord = DisplayRecord(
    display: string,
    id: Value,
    name: Value,
    description: Value,
    pricing: Value,
    contextLength: Value,
    supportsTools: Value)

  /** `format_model_display(model, include_tool_indicator)`. The text of a
      pricing dict, or the exception computing it raises, is `pricingText`
      (float arithmetic). */
  method FormatModelDisplay(model: Record, pricingText: map<string, Value> -> Result<string>,
                            includeToolIndicator: bool := false)
    returns (result: Result<DisplayRecord>)
    ensures "id" !in model ==> result == Err(KeyError("id"))
    ensures "id" in model && !Get(model, "pricing", Dict(map[])).Dict? ==> result == Err(AttributeError("get"))
    ensures "id" in model && Get(model, "pricing", Dict(map[])).Dict? ==>
      var p := pricingText(Get(model, "pricing", Dict(map[])).entries);
      && (p.Err? ==> result == Err(p.error))
      && (p.Ok? ==> (result.Err? <==> Get(model, "context_length", Str("Unknown")) == Float(Infinity(false))))
      && (p.Ok? && result.Err? ==> result.error == OverflowError)
    ensures result.Ok? ==> var d := result.value;
      && d.id == model["id"]
      && d.name == (if "name" in model then model["name"] else model["id"])
      && d.description == Get(model, "description", Str(""))
      && d.pricing == Get(model, "pricing", Dict(map[]))
      && d.contextLength == Get(model, "context_length", Str("Unknown"))
      && d.supportsTools == (if includeToolIndicator then ReportedSupportsTools(model) else Null)
      && d.pricing.Dict? && pricingText(d.pricing.entries).Ok? && ContextLengthText(d.contextLength).Ok?
      && d.display == (if includeToolIndicator && ToolCapable(model) then ToolMarker else "")
                      + FormatValue(d.name) + " | " + pricingText(d.pricing.entries).value
                      + " | " + ContextLengthText(d.contextLength).value
  {
    var name := if "name" in model then model["name"] else Get(model, "id", Str("Unknown"));
    if "id" !in model {
      return Err(KeyError("id"));
    }
    var modelId := model["id"];
    var pricing := Get(model, "pricing", Dict(map[]));
    var contextLength := Get(model, "context_length", Str("Unknown"));
    var description := Get(model, "description", Str(""));

    var toolIndicator := "";
    var supportsTools := Null;
    if includeToolIndicator {
      supportsTools := Get(model, "supports_tools", Bool(false));
      var supportsFunctionCalling := Get(model, "supports_function_calling", Bool(false));
      if !(Truthy(supportsTools) || Truthy(supportsFunctionCalling)) && modelId.Str? {
        var modelLower := Lower(modelId.s);
        forall k | 0 <= k < |ToolPatterns|
          ensures Contains(modelLower, ToolPatterns[k]) <==> Occurs(modelLower, ToolPatterns[k])
        {
          ContainsIff(modelLower, ToolPatterns[k]);
        }
        if exists k | 0 <= k < |ToolPatterns| :: Contains(modelLower, ToolPatterns[k]) {
          supportsTools := Bool(true);
        }
      }
      if Truthy(supportsTools) || Truthy(supportsFunctionCalling) {
        toolIndicator := ToolMarker;
      }
    }

    if !pricing.Dict? {
      return Err(AttributeError("get"));
    }
    var pricingStr := pricingText(pricing.entries);
    if pricingStr.Err? {
      return Err(pricingStr.error);
    }

    var contextStr := ContextLengthText(contextLength);
    if contextStr.Err? {
      return Err(contextStr.error);
    }

    var displayName := toolIndicator + FormatValue(name) + " | " + pricingStr.value + " | " + contextStr.value;
    result := Ok(DisplayRecord(displayName, modelId, name, description, pricing, contextLength,
                               if includeToolIndicator then supportsTools else Null));
  }
}
