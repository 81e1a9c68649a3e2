/** The command-line front end: the listing of model choices shown in the
    `--model` help text, and where the API key comes from. */
module Cli {
  import opened Wrappers
  import opened Errors
  import opened Text

  /** Known model names the listing leaves out: the test model and every
      Vertex AI model. */
  predicate Listed(item: string) {
    item != "test" && !StartsWith(item, "google-vertex")
  }

  /** The listed names, in order. */
  function ListedNames(items: seq<string>): (r: seq<string>)
    ensures forall i | 0 <= i < |r| :: Listed(r[i])
  {
    if |items| == 0 then []
    else (if Listed(items[0]) then [items[0]] else []) + ListedNames(items[1..])
  }

  /** Every name holds exactly one colon. */
  predicate AllUnpack(names: seq<string>) {
    forall i | 0 <= i < |names| :: Count(names[i], ':') == 1
  }

  /** Every listed name split at its colon into `(provider, model)`; the
      first name that does not split into exactly two parts aborts the
      listing, as the tuple unpacking does. */
  function ProviderModelPairs(items: seq<string>): (r: Result<seq<(string, string)>, Error>)
    ensures r.Ok? <==> AllUnpack(ListedNames(items))
    ensures r.Err? ==> r.error.ValueError?
    ensures r.Ok? ==> |r.value| == |ListedNames(items)|
    ensures r.Ok? ==> forall i | 0 <= i < |r.value| ::
      && r.value[i].0 + ":" + r.value[i].1 == ListedNames(items)[i]
      && ':' !in r.value[i].0 && ':' !in r.value[i].1
  {
    if |items| == 0 then Ok([])
    else if !Listed(items[0]) then
      assert ListedNames(items) == ListedNames(items[1..]);
      ProviderModelPairs(items[1..])
    else
      var names := ListedNames(items);
      assert names == [items[0]] + ListedNames(items[1..]);
      AllUnpackCons(items[0], ListedNames(items[1..]));
      match UnpackPair(items[0], ':')
      case Err(e) => Err(e)
      case Ok(pair) =>
        match ProviderModelPairs(items[1..])
        case Err(e) => Err(e)
        case Ok(rest) =>
          PairsCons(pair, rest, items[0], ListedNames(items[1..]));
          Ok([pair] + rest)
  }

  lemma AllUnpackCons(name: string, names: seq<string>)
    ensures AllUnpack([name] + names) <==> Count(name, ':') == 1 && AllUnpack(names)
  {
    var all := [name] + names;
    assert all[0] == name;
    assert forall i | 0 <= i < |names| :: all[i + 1] == names[i];
  }

  lemma PairsCons(pair: (string, string), rest: seq<(string, string)>, name: string, names: seq<string>)
    requires pair.0 + ":" + pair.1 == name && ':' !in pair.0 && ':' !in pair.1
    requires |rest| == |names|
    requires forall i | 0 <= i < |rest| ::
      rest[i].0 + ":" + rest[i].1 == names[i] && ':' !in rest[i].0 && ':' !in rest[i].1
    ensures forall i | 0 <= i < |rest| + 1 ::
      var p := ([pair] + rest)[i];
      p.0 + ":" + p.1 == ([name] + names)[i] && ':' !in p.0 && ':' !in p.1
  {
    forall i | 1 <= i < |rest| + 1
      ensures ([pair] + rest)[i] == rest[i - 1] && ([name] + names)[i] == names[i - 1]
    {
    }
  }

  /** The grouping: each provider with its models, in the order providers
      were first seen, as a `defaultdict(list)` keeps them. */
  type Groups = seq<(string, seq<string>)>

  predicate DistinctKeys(g: Groups) {
    forall i, j | 0 <= i < j < |g| :: g[i].0 != g[j].0
  }

  predicate HasKey(g: Groups, k: string) {
    exists i | 0 <= i < |g| :: g[i].0 == k
  }

  /** `grouped[provider].append(model)`: an existing group grows at its
      end; an unseen provider opens a new group after all the others. */
  function AddTo(g: Groups, provider: string, model: string): (r: Groups)
    requires DistinctKeys(g)
    ensures |r| == if HasKey(g, provider) then |g| else |g| + 1
    ensures forall i | 0 <= i < |g| ::
      r[i] == if g[i].0 == provider then (provider, g[i].1 + [model]) else g[i]
    ensures !HasKey(g, provider) ==> r[|g|] == (provider, [model])
  {
    if |g| == 0 then [(provider, [model])]
    else if g[0].0 == provider then
      var r := [(provider, g[0].1 + [model])] + g[1..];
      assert forall i | 1 <= i < |g| :: r[i] == g[i] && g[i].0 != provider;
      r
    else
      var rest := AddTo(g[1..], provider, model);
      assert HasKey(g, provider) <==> HasKey(g[1..], provider) by {
        if HasKey(g, provider) {
          var i :| 0 <= i < |g| && g[i].0 == provider;
          assert g[1..][i - 1].0 == provider;
        }
        if HasKey(g[1..], provider) {
          var i :| 0 <= i < |g[1..]| && g[1..][i].0 == provider;
          assert g[i + 1].0 == provider;
        }
      }
      var r := [g[0]] + rest;
      assert forall i | 1 <= i < |g| :: r[i] == rest[i - 1] && g[i] == g[1..][i - 1];
      r
  }

  /** Some pair names provider `k`. */
  predicate HasProvider(pairs: seq<(string, string)>, k: string) {
    exists i | 0 <= i < |pairs| :: pairs[i].0 == k
  }

  /** The models paired with provider `k`, in order. */
  function ModelsOf(pairs: seq<(string, string)>, k: string): seq<string> {
    if |pairs| == 0 then []
    else (if pairs[0].0 == k then [pairs[0].1] else []) + ModelsOf(pairs[1..], k)
  }

  /** Where provider `k` first appears. */
  function FirstIndex(pairs: seq<(string, string)>, k: string): (n: nat)
    requires HasProvider(pairs, k)
    ensures n < |pairs| && pairs[n].0 == k
    ensures forall i | 0 <= i < n :: pairs[i].0 != k
  {
    if pairs[0].0 == k then 0
    else
      assert HasProvider(pairs[1..], k) by {
        var i :| 0 <= i < |pairs| && pairs[i].0 == k;
        assert pairs[1..][i - 1].0 == k;
      }
      1 + FirstIndex(pairs[1..], k)
  }

  /** The grouping loop over the pairs. Its groups are exactly the
      providers that occur, each once, ordered by first occurrence, each
      holding that provider's models in order. */
  function Group(pairs: seq<(string, string)>): (g: Groups)
    decreases |pairs|
    ensures DistinctKeys(g)
    ensures forall k :: HasKey(g, k) <==> HasProvider(pairs, k)
    ensures forall i | 0 <= i < |g| :: g[i].1 == ModelsOf(pairs, g[i].0)
    ensures forall i, j | 0 <= i < j < |g| ::
      HasProvider(pairs, g[i].0) && HasProvider(pairs, g[j].0) &&
      FirstIndex(pairs, g[i].0) < FirstIndex(pairs, g[j].0)
  {
    if |pairs| == 0 then []
    else
      var init := pairs[..|pairs| - 1];
      var x := pairs[|pairs| - 1];
      assert pairs == init + [x];
      var g := Group(init);
      GroupStep(init, x, g);
      AddTo(g, x.0, x.1)
  }

  /** One round of the grouping loop keeps the characterization of
      `Group`. */
  lemma GroupStep(init: seq<(string, string)>, x: (string, string), g: Groups)
    requires DistinctKeys(g)
    requires forall k :: HasKey(g, k) <==> HasProvider(init, k)
    requires forall i | 0 <= i < |g| :: g[i].1 == ModelsOf(init, g[i].0)
    requires forall i, j | 0 <= i < j < |g| ::
      HasProvider(init, g[i].0) && HasProvider(init, g[j].0) &&
      FirstIndex(init, g[i].0) < FirstIndex(init, g[j].0)
    ensures var r := AddTo(g, x.0, x.1); var pairs := init + [x];
      && DistinctKeys(r)
      && (forall k :: HasKey(r, k) <==> HasProvider(pairs, k))
      && (forall i | 0 <= i < |r| :: r[i].1 == ModelsOf(pairs, r[i].0))
      && (forall i, j | 0 <= i < j < |r| ::
            HasProvider(pairs, r[i].0) && HasProvider(pairs, r[j].0) &&
            FirstIndex(pairs, r[i].0) < FirstIndex(pairs, r[j].0))
  {
    var r := AddTo(g, x.0, x.1);
    var pairs := init + [x];
    AddToKeys(g, x.0, x.1);
    ProvidersSnoc(init, x);
    AddToModels(init, x, g);
    AddToOrder(init, x, g);
  }

  /** The keys after `AddTo`: the old ones and the added provider, still
      each once. */
  lemma AddToKeys(g: Groups, provider: string, model: string)
    requires DistinctKeys(g)
    ensures DistinctKeys(AddTo(g, provider, model))
    ensures forall k :: HasKey(AddTo(g, provider, model), k) <==> HasKey(g, k) || k == provider
  {
    var r := AddTo(g, provider, model);
    forall k ensures HasKey(r, k) <==> HasKey(g, k) || k == provider {
      if HasKey(g, k) {
        var i :| 0 <= i < |g| && g[i].0 == k;
        assert r[i].0 == k;
      } else if k == provider {
        assert r[|g|].0 == k;
      } else {
        forall i | 0 <= i < |r| ensures r[i].0 != k {
          if i < |g| {
            assert r[i].0 == g[i].0;
          }
        }
      }
    }
    forall i, j | 0 <= i < j < |r| ensures r[i].0 != r[j].0 {
      if j < |g| {
        assert r[i].0 == g[i].0 && r[j].0 == g[j].0;
      } else {
        assert r[i].0 == g[i].0;
      }
    }
  }

  /** The providers after appending a pair: the old ones and its own. */
  lemma ProvidersSnoc(init: seq<(string, string)>, x: (string, string))
    ensures forall k :: HasProvider(init + [x], k) <==> HasProvider(init, k) || x.0 == k
  {
    var pairs := init + [x];
    forall k ensures HasProvider(pairs, k) <==> HasProvider(init, k) || x.0 == k {
      if HasProvider(init, k) {
        var i :| 0 <= i < |init| && init[i].0 == k;
        assert pairs[i].0 == k;
      } else if x.0 == k {
        assert pairs[|init|].0 == k;
      } else {
        forall i | 0 <= i < |pairs| ensures pairs[i].0 != k {
          if i < |init| {
            assert pairs[i] == init[i];
          }
        }
      }
    }
  }

  lemma AddToModels(init: seq<(string, string)>, x: (string, string), g: Groups)
    requires DistinctKeys(g)
    requires forall k :: HasKey(g, k) <==> HasProvider(init, k)
    requires forall i | 0 <= i < |g| :: g[i].1 == ModelsOf(init, g[i].0)
    ensures forall i | 0 <= i < |AddTo(g, x.0, x.1)| ::
      AddTo(g, x.0, x.1)[i].1 == ModelsOf(init + [x], AddTo(g, x.0, x.1)[i].0)
  {
    var r := AddTo(g, x.0, x.1);
    forall i | 0 <= i < |r| ensures r[i].1 == ModelsOf(init + [x], r[i].0) {
      ModelsOfSnoc(init, x, r[i].0);
      if i == |g| {
        ModelsOfAbsent(init, x.0);
      }
    }
  }

  lemma AddToOrder(init: seq<(string, string)>, x: (string, string), g: Groups)
    requires DistinctKeys(g)
    requires forall k :: HasKey(g, k) <==> HasProvider(init, k)
    requires forall i, j | 0 <= i < j < |g| ::
      HasProvider(init, g[i].0) && HasProvider(init, g[j].0) &&
      FirstIndex(init, g[i].0) < FirstIndex(init, g[j].0)
    ensures var r := AddTo(g, x.0, x.1);
      forall i, j | 0 <= i < j < |r| ::
        HasProvider(init + [x], r[i].0) && HasProvider(init + [x], r[j].0) &&
        FirstIndex(init + [x], r[i].0) < FirstIndex(init + [x], r[j].0)
  {
    var r := AddTo(g, x.0, x.1);
    var pairs := init + [x];
    OldKeysKeepPlace(init, x, g);
    if !HasKey(g, x.0) {
      FirstIndexNew(init, x);
    }
    forall i | 0 <= i < |g| ensures r[i].0 == g[i].0 {
    }
    forall i, j | 0 <= i < j < |g|
      ensures FirstIndex(pairs, g[i].0) < FirstIndex(pairs, g[j].0)
    {
    }
    OrderAfterAdd(pairs, |init|, g, r);
  }

  /** Keys ordered by first occurrence stay ordered when the keys after
      them are unchanged and at most one key, first seen at `n`, after all
      the others, is appended. */
  lemma OrderAfterAdd(pairs: seq<(string, string)>, n: nat, g: Groups, r: Groups)
    requires |g| <= |r| <= |g| + 1
    requires forall i | 0 <= i < |g| :: r[i].0 == g[i].0
    requires forall i | 0 <= i < |g| :: HasProvider(pairs, g[i].0) && FirstIndex(pairs, g[i].0) < n
    requires forall i, j | 0 <= i < j < |g| :: FirstIndex(pairs, g[i].0) < FirstIndex(pairs, g[j].0)
    requires |r| == |g| + 1 ==> HasProvider(pairs, r[|g|].0) && FirstIndex(pairs, r[|g|].0) == n
    ensures forall i, j | 0 <= i < j < |r| ::
      HasProvider(pairs, r[i].0) && HasProvider(pairs, r[j].0) &&
      FirstIndex(pairs, r[i].0) < FirstIndex(pairs, r[j].0)
  {
    forall i, j | 0 <= i < j < |r|
      ensures HasProvider(pairs, r[i].0) && HasProvider(pairs, r[j].0)
      ensures FirstIndex(pairs, r[i].0) < FirstIndex(pairs, r[j].0)
    {
      assert r[i].0 == g[i].0;
      if j < |g| {
        assert r[j].0 == g[j].0;
      }
    }
  }

  /** The providers already grouped keep their first occurrence, which
      lies before the appended pair. */
  lemma OldKeysKeepPlace(init: seq<(string, string)>, x: (string, string), g: Groups)
    requires forall k :: HasKey(g, k) <==> HasProvider(init, k)
    ensures forall i | 0 <= i < |g| ::
      && HasProvider(init, g[i].0) && HasProvider(init + [x], g[i].0)
      && FirstIndex(init + [x], g[i].0) == FirstIndex(init, g[i].0) < |init|
  {
    forall i | 0 <= i < |g|
      ensures HasProvider(init, g[i].0) && HasProvider(init + [x], g[i].0)
      ensures FirstIndex(init + [x], g[i].0) == FirstIndex(init, g[i].0) < |init|
    {
      assert HasKey(g, g[i].0);
      FirstIndexSnoc(init, x, g[i].0);
    }
  }

  lemma {:induction false} ModelsOfSnoc(init: seq<(string, string)>, x: (string, string), k: string)
    ensures ModelsOf(init + [x], k) == ModelsOf(init, k) + (if x.0 == k then [x.1] else [])
  {
    if |init| > 0 {
      assert (init + [x])[1..] == init[1..] + [x];
      ModelsOfSnoc(init[1..], x, k);
    }
  }

  lemma {:induction false} ModelsOfAbsent(pairs: seq<(string, string)>, k: string)
    requires !HasProvider(pairs, k)
    ensures ModelsOf(pairs, k) == []
  {
    if |pairs| > 0 {
      assert pairs[0].0 != k;
      forall i | 0 <= i < |pairs[1..]| ensures pairs[1..][i].0 != k {
        assert pairs[1..][i] == pairs[i + 1];
      }
      ModelsOfAbsent(pairs[1..], k);
    }
  }

  /** Appending a pair does not move the first occurrence of a provider
      already present. */
  lemma FirstIndexSnoc(init: seq<(string, string)>, x: (string, string), k: string)
    requires HasProvider(init, k)
    ensures HasProvider(init + [x], k) && FirstIndex(init + [x], k) == FirstIndex(init, k)
  {
    var pairs := init + [x];
    var n := FirstIndex(init, k);
    assert pairs[n].0 == k;
    var m := FirstIndex(pairs, k);
    assert m <= n;
    assert pairs[m] == init[m];
  }

  /** A provider seen for the first time in the last pair first occurs
      there. */
  lemma FirstIndexNew(init: seq<(string, string)>, x: (string, string))
    requires !HasProvider(init, x.0)
    ensures HasProvider(init + [x], x.0) && FirstIndex(init + [x], x.0) == |init|
  {
    var pairs := init + [x];
    assert pairs[|init|].0 == x.0;
    var m := FirstIndex(pairs, x.0);
    assert m <= |init|;
    forall i | 0 <= i < |init| ensures pairs[i].0 != x.0 {
      assert pairs[i] == init[i];
    }
  }

  /** One line of the listing: `- provider: model, model, ...`. */
  function FormatLine(group: (string, seq<string>)): string {
    "- " + group.0 + ": " + Join(group.1, ", ")
  }

  function FormatLines(g: Groups): (lines: seq<string>)
    ensures |lines| == |g|
    ensures forall i | 0 <= i < |g| :: lines[i] == FormatLine(g[i])
  {
    seq(|g|, i requires 0 <= i < |g| => FormatLine(g[i]))
  }

  /** No known model name holds a line break. */
  predicate NoLineBreaks(known: seq<string>) {
    forall i | 0 <= i < |known| :: '\n' !in known[i]
  }

  /** The model listing from the known model names: the first listed name
      without exactly one colon aborts it with the unpacking error;
      otherwise it has one line `- provider: model, model, ...` per
      provider, providers in order of first occurrence (see `Group`), each
      with all of its models in order, and nothing else. */
  function FormatModelOptions(known: seq<string>): (r: Result<string, Error>)
    ensures r.Ok? <==> AllUnpack(ListedNames(known))
    ensures r.Err? ==> r.error.ValueError? && r == Err(ProviderModelPairs(known).error)
    ensures r.Ok? ==> r.value == Join(FormatLines(Group(ProviderModelPairs(known).value)), "\n")
    ensures r.Ok? && ListedNames(known) == [] ==> r.value == ""
    ensures r.Ok? && NoLineBreaks(known) && ListedNames(known) != [] ==>
      var pairs := ProviderModelPairs(known).value;
      var g := Group(pairs);
      var lines := Split(r.value, '\n');
      && |lines| == |g|
      && forall i | 0 <= i < |g| :: lines[i] == "- " + g[i].0 + ": " + Join(ModelsOf(pairs, g[i].0), ", ")
  {
    var pairs :- ProviderModelPairs(known);
    var text := Join(FormatLines(Group(pairs)), "\n");
    if NoLineBreaks(known) && |pairs| > 0 then
      PairsSingleLine(known);
      ListingLines(pairs);
      Ok(text)
    else
      Ok(text)
  }

  /** Read back line by line, the joined listing is one line per provider
      group, provided no provider or model holds a line break and there is
      at least one pair. */
  lemma ListingLines(pairs: seq<(string, string)>)
    requires forall i | 0 <= i < |pairs| :: '\n' !in pairs[i].0 && '\n' !in pairs[i].1
    requires |pairs| > 0
    ensures Split(Join(FormatLines(Group(pairs)), "\n"), '\n') == FormatLines(Group(pairs))
  {
    var g := Group(pairs);
    assert HasProvider(pairs, pairs[0].0);
    assert HasKey(g, pairs[0].0);
    LinesSingleLine(pairs);
    SplitJoin(FormatLines(g), '\n');
  }

  lemma PairsSingleLine(known: seq<string>)
    requires NoLineBreaks(known)
    requires ProviderModelPairs(known).Ok?
    ensures var pairs := ProviderModelPairs(known).value;
      forall i | 0 <= i < |pairs| :: '\n' !in pairs[i].0 && '\n' !in pairs[i].1
  {
    var pairs := ProviderModelPairs(known).value;
    var names := ListedNames(known);
    ListedSingleLine(known);
    forall i | 0 <= i < |pairs| ensures '\n' !in pairs[i].0 && '\n' !in pairs[i].1 {
      assert pairs[i].0 + ":" + pairs[i].1 == names[i];
    }
  }

  lemma LinesSingleLine(pairs: seq<(string, string)>)
    requires forall i | 0 <= i < |pairs| :: '\n' !in pairs[i].0 && '\n' !in pairs[i].1
    ensures forall i | 0 <= i < |FormatLines(Group(pairs))| :: '\n' !in FormatLines(Group(pairs))[i]
  {
    var g := Group(pairs);
    forall i | 0 <= i < |g| ensures '\n' !in FormatLine(g[i]) {
      assert HasKey(g, g[i].0);
      ModelsSingleLine(pairs, g[i].0);
      JoinSingleLine(g[i].1, ", ");
    }
  }

  lemma {:induction false} ListedSingleLine(items: seq<string>)
    requires NoLineBreaks(items)
    ensures forall i | 0 <= i < |ListedNames(items)| :: '\n' !in ListedNames(items)[i]
  {
    if |items| > 0 {
      ListedSingleLine(items[1..]);
    }
  }

  lemma {:induction false} JoinSingleLine(parts: seq<string>, sep: string)
    requires '\n' !in sep
    requires forall i | 0 <= i < |parts| :: '\n' !in parts[i]
    ensures '\n' !in Join(parts, sep)
  {
    if |parts| > 1 {
      JoinSingleLine(parts[1..], sep);
    }
  }

  lemma {:induction false} ModelsSingleLine(pairs: seq<(string, string)>, k: string)
    requires forall i | 0 <= i < |pairs| :: '\n' !in pairs[i].1
    ensures forall j | 0 <= j < |ModelsOf(pairs, k)| :: '\n' !in ModelsOf(pairs, k)[j]
  {
    if |pairs| > 0 {
      ModelsSingleLine(pairs[1..], k);
    }
  }

  /** Python's `a or b` on optional strings. */
  function Or(a: Option<string>, b: Option<string>): Option<string> {
    if Truthy(a) then a else b
  }

  const MissingKeyMessage :=
    "API key must be provided either via --api-key argument " + "or OPENAI_API_KEY environment variable"

  /** The API key: the `--api-key` argument when it is given and non-empty,
      otherwise the `OPENAI_API_KEY` environment variable; neither is an
      error. */
  function ResolveApiKey(argKey: Option<string>, envKey: Option<string>): (r: Result<string, Error>)
    ensures r.Ok? <==> Truthy(argKey) || Truthy(envKey)
    ensures Truthy(argKey) ==> r == Ok(argKey.value)
    ensures !Truthy(argKey) && Truthy(envKey) ==> r == Ok(envKey.value)
    ensures r.Err? ==> r.error == ValueError(MissingKeyMessage)
  {
    var key := Or(argKey, envKey);
    if !Truthy(key) then Err(ValueError(MissingKeyMessage)) else Ok(key.value)
  }
}
