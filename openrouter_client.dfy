/** The OpenRouter client: the provider filter over a fetched catalog and the
    optional attribution headers built from the client's configuration. */
module OpenRouter {
  import opened Values

  // ---------------------------------------------------------------------------
  // Provider filter
  // ---------------------------------------------------------------------------

  predicate HasStringId(m: Record)
  {
    "id" in m && m["id"].Str?
  }

  /** A record the filter keeps: its id is a string that starts with `prefix`. */
  predicate IdHasPrefix(m: Record, prefix: string)
  {
    HasStringId(m) && prefix <= m["id"].s
  }

  /** The exception `model["id"].startswith(prefix)` raises on a record without
      a string id: a missing key, or a value with no `startswith`. */
  function IdError(m: Record): Error
  {
    if "id" in m then AttributeError("startswith") else KeyError("id")
  }

  /** The comprehension's test on one record, or the exception it raises. */
  function IdStartsWith(m: Record, prefix: string): Result<bool>
  {
    if !HasStringId(m) then Err(IdError(m)) else Ok(prefix <= m["id"].s)
  }

  /** `[model for model in models if model["id"].startswith(prefix)]`, tested
      front to back, so the first record without a string id ends the call. */
  function SelectByPrefix(models: seq<Record>, prefix: string): (r: Result<seq<Record>>)
    ensures r.Ok? ==> |r.value| <= |models|
    ensures r.Ok? ==> forall i | 0 <= i < |r.value| :: IdHasPrefix(r.value[i], prefix)
    decreases |models|
  {
    if models == [] then Ok([])
    else
      match IdStartsWith(models[0], prefix)
      case Err(e) => Err(e)
      case Ok(keep) =>
        match SelectByPrefix(models[1..], prefix)
        case Err(e) => Err(e)
        case Ok(rest) => Ok(if keep then [models[0]] + rest else rest)
  }

  /** How many records of `models` the filter keeps. */
  function CountWithPrefix(models: seq<Record>, prefix: string): nat
    decreases |models|
  {
    if models == [] then 0
    else (if IdHasPrefix(models[0], prefix) then 1 else 0) + CountWithPrefix(models[1..], prefix)
  }

  /** The filter succeeds exactly when every record has a string id. */
  lemma {:induction false} SelectOkIff(models: seq<Record>, prefix: string)
    ensures SelectByPrefix(models, prefix).Ok? <==> forall i | 0 <= i < |models| :: HasStringId(models[i])
    decreases |models|
  {
    if models != [] {
      SelectOkIff(models[1..], prefix);
      assert forall i | 1 <= i < |models| :: models[i] == models[1..][i - 1];
    }
  }

  /** On failure, the exception is the one raised by the first record, in list
      order, that has no string id. */
  lemma {:induction false} SelectFirstError(models: seq<Record>, prefix: string)
    requires SelectByPrefix(models, prefix).Err?
    ensures exists i | 0 <= i < |models| ::
      && !HasStringId(models[i])
      && (forall j | 0 <= j < i :: HasStringId(models[j]))
      && SelectByPrefix(models, prefix).error == IdError(models[i])
    decreases |models|
  {
    if HasStringId(models[0]) {
      SelectFirstError(models[1..], prefix);
      var k :| 0 <= k < |models[1..]|
        && !HasStringId(models[1..][k])
        && (forall j | 0 <= j < k :: HasStringId(models[1..][j]))
        && SelectByPrefix(models[1..], prefix).error == IdError(models[1..][k]);
      assert forall j | 1 <= j < k + 1 :: models[j] == models[1..][j - 1];
      assert models[k + 1] == models[1..][k];
    } else {
      assert !HasStringId(models[0]);
    }
  }

  /** On success, the result holds exactly the records whose id starts with
      `prefix`, as many of them as the catalog has. */
  lemma {:induction false} SelectKeepsMatches(models: seq<Record>, prefix: string)
    requires SelectByPrefix(models, prefix).Ok?
    ensures var r := SelectByPrefix(models, prefix).value;
      && |r| == CountWithPrefix(models, prefix)
      && forall x :: x in r <==> x in models && IdHasPrefix(x, prefix)
    decreases |models|
  {
    if models != [] {
      SelectKeepsMatches(models[1..], prefix);
      assert models == [models[0]] + models[1..];
      SelectOkIff(models, prefix);
      assert HasStringId(models[0]);
    }
  }

  /** The filter distributes over concatenation: records are kept or dropped
      one by one, in upstream order, and the first failure wins. Together with
      the one-record case (the definition) this determines the filter. */
  lemma {:induction false} SelectAppend(a: seq<Record>, b: seq<Record>, prefix: string)
    ensures SelectByPrefix(a, prefix).Err? ==> SelectByPrefix(a + b, prefix) == SelectByPrefix(a, prefix)
    ensures SelectByPrefix(a, prefix).Ok? && SelectByPrefix(b, prefix).Err? ==>
      SelectByPrefix(a + b, prefix) == SelectByPrefix(b, prefix)
    ensures SelectByPrefix(a, prefix).Ok? && SelectByPrefix(b, prefix).Ok? ==>
      SelectByPrefix(a + b, prefix) == Ok(SelectByPrefix(a, prefix).value + SelectByPrefix(b, prefix).value)
    decreases |a|
  {
    if a == [] {
      assert a + b == b;
      if SelectByPrefix(b, prefix).Ok? {
        assert [] + SelectByPrefix(b, prefix).value == SelectByPrefix(b, prefix).value;
      }
    } else {
      assert (a + b)[0] == a[0];
      assert (a + b)[1..] == a[1..] + b;
      SelectAppend(a[1..], b, prefix);
      if SelectByPrefix(a, prefix).Ok? && SelectByPrefix(b, prefix).Ok? {
        var ra, rb := SelectByPrefix(a[1..], prefix).value, SelectByPrefix(b, prefix).value;
        assert ([a[0]] + ra) + rb == [a[0]] + (ra + rb);
      }
    }
  }

  /** When every record has the provider's prefix, all of them are kept. */
  lemma {:induction false} SelectAllMatch(models: seq<Record>, prefix: string)
    requires forall i | 0 <= i < |models| :: IdHasPrefix(models[i], prefix)
    ensures SelectByPrefix(models, prefix) == Ok(models)
    decreases |models|
  {
    if models != [] {
      SelectAllMatch(models[1..], prefix);
      assert models == [models[0]] + models[1..];
    }
  }

  function Min(a: nat, b: nat): nat
  {
    if a <= b then a else b
  }

  /** `fetch_top_models_by_provider` over the catalog `fetch_models` returned:
      keep the records whose id starts with `provider + "/"`, in upstream
      order, then `[:limit]`. */
  function TopModelsByProvider(allModels: seq<Record>, provider: string, limit: nat := 5): (r: Result<seq<Record>>)
    ensures r.Ok? <==> forall i | 0 <= i < |allModels| :: HasStringId(allModels[i])
    ensures r.Ok? ==> |r.value| == Min(limit, CountWithPrefix(allModels, provider + "/"))
    ensures r.Ok? ==> |r.value| <= limit
    ensures r.Ok? ==> forall i | 0 <= i < |r.value| :: IdHasPrefix(r.value[i], provider + "/") && r.value[i] in allModels
    ensures r.Ok? ==> SelectByPrefix(allModels, provider + "/").Ok? && r.value <= SelectByPrefix(allModels, provider + "/").value
  {
    SelectOkIff(allModels, provider + "/");
    match SelectByPrefix(allModels, provider + "/")
    case Err(e) => Err(e)
    case Ok(matches) =>
      SelectKeepsMatches(allModels, provider + "/");
      var top := matches[..Min(limit, |matches|)];
      assert forall i | 0 <= i < |top| :: top[i] in matches;
      Ok(top)
  }

  /** With no more matches than the limit, every match comes back. */
  lemma TopModelsAllWhenFew(allModels: seq<Record>, provider: string, limit: nat)
    requires forall i | 0 <= i < |allModels| :: HasStringId(allModels[i])
    requires CountWithPrefix(allModels, provider + "/") <= limit
    ensures TopModelsByProvider(allModels, provider, limit) == SelectByPrefix(allModels, provider + "/")
  {
    SelectOkIff(allModels, provider + "/");
    SelectKeepsMatches(allModels, provider + "/");
    var matches := SelectByPrefix(allModels, provider + "/").value;
    assert matches[..|matches|] == matches;
  }

  lemma {:induction false} CountWithPrefixZero(models: seq<Record>, prefix: string)
    requires forall i | 0 <= i < |models| :: !IdHasPrefix(models[i], prefix)
    ensures CountWithPrefix(models, prefix) == 0
    decreases |models|
  {
    if models != [] {
      assert forall i | 0 <= i < |models[1..]| :: models[1..][i] == models[i + 1];
      CountWithPrefixZero(models[1..], prefix);
    }
  }

  /** A provider without any record in the catalog gets an empty list. */
  lemma TopModelsNoMatch(allModels: seq<Record>, provider: string, limit: nat)
    requires forall i | 0 <= i < |allModels| :: HasStringId(allModels[i])
    requires forall i | 0 <= i < |allModels| :: !IdHasPrefix(allModels[i], provider + "/")
    ensures TopModelsByProvider(allModels, provider, limit) == Ok([])
  {
    CountWithPrefixZero(allModels, provider + "/");
  }

  /** The result is the first matches in upstream order: once the leading part
      `a` of the catalog holds `limit` matches, what follows changes nothing,
      provided it raises nothing. */
  lemma TopModelsFirstMatches(a: seq<Record>, b: seq<Record>, provider: string, limit: nat)
    requires SelectByPrefix(a, provider + "/").Ok?
    requires |SelectByPrefix(a, provider + "/").value| >= limit
    requires forall i | 0 <= i < |b| :: HasStringId(b[i])
    ensures TopModelsByProvider(a + b, provider, limit) == TopModelsByProvider(a, provider, limit)
  {
    SelectOkIff(b, provider + "/");
    SelectAppend(a, b, provider + "/");
    var sa := SelectByPrefix(a, provider + "/").value;
    var sab := SelectByPrefix(a + b, provider + "/").value;
    assert sab[..limit] == sa[..limit];
  }

  // ---------------------------------------------------------------------------
  // The client and its extra headers
  // ---------------------------------------------------------------------------

  /** The client's configuration, as `__init__` stores it. */
  class OpenRouterClient {
    var apiKey: string
    var siteUrl: Option<string>
    var siteName: Option<string>

    constructor (apiKey: string, siteUrl: Option<string> := None, siteName: Option<string> := None)
      ensures this.apiKey == apiKey && this.siteUrl == siteUrl && this.siteName == siteName
    {
      this.apiKey := apiKey;
      this.siteUrl := siteUrl;
      this.siteName := siteName;
    }

    /** `get_extra_headers`: one attribution header per configured, non-empty
        field, and no other header. */
    method GetExtraHeaders() returns (headers: map<string, string>)
      ensures headers.Keys <= {"HTTP-Referer", "X-Title"}
      ensures "HTTP-Referer" in headers <==> TruthyText(siteUrl)
      ensures "HTTP-Referer" in headers ==> headers["HTTP-Referer"] == siteUrl.value
      ensures "X-Title" in headers <==> TruthyText(siteName)
      ensures "X-Title" in headers ==> headers["X-Title"] == siteName.value
    {
      headers := map[];
      if TruthyText(siteUrl) {
        headers := headers["HTTP-Referer" := siteUrl.value];
      }
      if TruthyText(siteName) {
        headers := headers["X-Title" := siteName.value];
      }
    }
  }
}
