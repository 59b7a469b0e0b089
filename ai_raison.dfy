/**
 * The decision-engine client: the label-to-identifier tables, the validation
 * that turns element and option labels into a request payload, and the parsing
 * of the engine's reply into solution labels and explanations.
 */
module AiRaison {
  import opened Common
  import opened Strings
  import opened Seqs

  /** The element table: scenario facts the engine understands, with their identifiers. */
  const ElementIds: map<string, string> := map[
    "fuel_low" := "OPT381218",
    "fuel_critical" := "OPT381268",
    "urgent" := "OPT381318",
    "budget_tight" := "OPT381368",
    "route_asked" := "OPT381418",
    "road_closure" := "OPT381468",
    "leisure_trip and good_weather" := "OPT381618",
    "traffic_heavy" := "OPT381818",
    "short_city_trip" := "OPT381968"
  ]

  /** The option table: route strategies the engine may choose, with their identifiers. */
  const OptionIds: map<string, string> := map[
    "route_refuel" := "OPT381168",
    "route_scenic" := "OPT381118",
    "route_detour" := "OPT381068",
    "route_toll_free" := "OPT381018",
    "route_short" := "OPT380968",
    "route_fast" := "OPT380918"
  ]

  /** The keys of the option table in the order the table lists them. */
  const OptionLabels: seq<string> :=
    ["route_refuel", "route_scenic", "route_detour", "route_toll_free", "route_short", "route_fast"]

  predicate Injective(m: map<string, string>) {
    forall a, b :: a in m && b in m && a != b ==> m[a] != m[b]
  }

  /** No two element labels share an identifier. */
  lemma ElementIdsInjective()
    ensures Injective(ElementIds)
  {
  }

  /** No two option labels share an identifier. */
  lemma OptionIdsInjective()
    ensures Injective(OptionIds)
  {
  }

  /** No identifier is both an element and an option. */
  lemma IdsDisjoint()
    ensures ElementIds.Values !! OptionIds.Values
  {
  }

  /** The ordered key list is the option table's key set, without repeats. */
  lemma OptionLabelsAreTheKeys()
    ensures NoDup(OptionLabels) && (forall l :: l in OptionLabels <==> l in OptionIds)
  {
  }

  /** One `{"label": ..., "id": ...}` entry of the payload (element entries also carry an empty parameter list). */
  datatype PayloadEntry = PayloadEntry(name: string, id: string)

  datatype Payload = Payload(elements: seq<PayloadEntry>, options: seq<PayloadEntry>)

  /** The index of the first label that is not a key of `table`, or `|labels|` when every label is one. */
  function FirstUnknown(labels: seq<string>, table: map<string, string>): (k: nat)
    ensures k <= |labels|
    ensures forall j :: 0 <= j < k ==> labels[j] in table
    ensures k < |labels| ==> labels[k] !in table
  {
    if labels == [] then 0
    else if labels[0] !in table then 0
    else 1 + FirstUnknown(labels[1..], table)
  }

  /** The option labels asked for, or every option in table order when none are given. */
  function RequestedOptions(optionLabels: Option<seq<string>>): seq<string> {
    optionLabels.GetOr(OptionLabels)
  }

  /** Entries for `labels`, in their order, each carrying its table identifier. */
  predicate EntriesFor(entries: seq<PayloadEntry>, labels: seq<string>, table: map<string, string>)
  {
    |entries| == |labels| &&
    forall k :: 0 <= k < |labels| ==> labels[k] in table && entries[k] == PayloadEntry(labels[k], table[labels[k]])
  }

  /** `_build_payload` with the engine's tables. */
  method BuildPayload(elementLabels: seq<string>, optionLabels: Option<seq<string>>)
    returns (r: Result<Payload, string>)
    ensures r == PayloadFor(elementLabels, optionLabels)
  {
    r := BuildPayloadWith(elementLabels, RequestedOptions(optionLabels), ElementIds, OptionIds);
  }

  /**
   * The loops of `_build_payload` over element tables `et` and option tables
   * `ot`: every element label is resolved, then every option label; the first
   * unknown label raises, element labels being checked first.
   */
  method BuildPayloadWith(elementLabels: seq<string>, opts: seq<string>, et: map<string, string>, ot: map<string, string>)
    returns (r: Result<Payload, string>)
    ensures var e := FirstUnknown(elementLabels, et);
      e < |elementLabels| ==> r == Err("Unknown ai-raison element label: " + elementLabels[e])
    ensures var e, o := FirstUnknown(elementLabels, et), FirstUnknown(opts, ot);
      e == |elementLabels| && o < |opts| ==> r == Err("Unknown ai-raison option label: " + opts[o])
    ensures r.Ok? <==> ((forall l :: l in elementLabels ==> l in et) && (forall l :: l in opts ==> l in ot))
    ensures r.Ok? ==> (EntriesFor(r.value.elements, elementLabels, et) && EntriesFor(r.value.options, opts, ot))
    ensures r == PayloadWith(elementLabels, opts, et, ot)
  {
    var elements: seq<PayloadEntry> := [];
    var i := 0;
    while i < |elementLabels|
      invariant 0 <= i <= |elementLabels|
      invariant EntriesFor(elements, elementLabels[..i], et)
    {
      var lab := elementLabels[i];
      if lab !in et {
        assert FirstUnknown(elementLabels, et) == i by {
          assert forall j :: 0 <= j < i ==> elementLabels[..i][j] == elementLabels[j];
        }
        r := Err("Unknown ai-raison element label: " + lab);
        PayloadWithAgrees(elementLabels, opts, et, ot, r);
        return;
      }
      elements := elements + [PayloadEntry(lab, et[lab])];
      i := i + 1;
      assert elementLabels[..i] == elementLabels[..i - 1] + [lab];
    }
    assert elementLabels[..i] == elementLabels;

    var options: seq<PayloadEntry> := [];
    i := 0;
    while i < |opts|
      invariant 0 <= i <= |opts|
      invariant EntriesFor(options, opts[..i], ot)
    {
      var lab := opts[i];
      if lab !in ot {
        assert FirstUnknown(opts, ot) == i by {
          assert forall j :: 0 <= j < i ==> opts[..i][j] == opts[j];
        }
        r := Err("Unknown ai-raison option label: " + lab);
        PayloadWithAgrees(elementLabels, opts, et, ot, r);
        return;
      }
      options := options + [PayloadEntry(lab, ot[lab])];
      i := i + 1;
      assert opts[..i] == opts[..i - 1] + [lab];
    }
    assert opts[..i] == opts;
    r := Ok(Payload(elements, options));
    PayloadWithAgrees(elementLabels, opts, et, ot, r);
  }

  /**
   * The error `_build_payload` raises with tables `et` and `ot`, if any: the
   * first unknown element label, else the first unknown option label.
   */
  function LabelErrorWith(elementLabels: seq<string>, opts: seq<string>, et: map<string, string>, ot: map<string, string>)
    : (r: Option<string>)
    ensures r.None? <==> ((forall l :: l in elementLabels ==> l in et) && (forall l :: l in opts ==> l in ot))
  {
    var e, o := FirstUnknown(elementLabels, et), FirstUnknown(opts, ot);
    if e < |elementLabels| then Some("Unknown ai-raison element label: " + elementLabels[e])
    else if o < |opts| then Some("Unknown ai-raison option label: " + opts[o])
    else
      assert forall i :: 0 <= i < |elementLabels| ==> elementLabels[i] in et;
      assert forall i :: 0 <= i < |opts| ==> opts[i] in ot;
      None
  }

  /** The entries for labels that are all in `table`. */
  function Entries(labels: seq<string>, table: map<string, string>): (r: seq<PayloadEntry>)
    requires forall l :: l in labels ==> l in table
    ensures EntriesFor(r, labels, table)
  {
    if labels == [] then []
    else [PayloadEntry(labels[0], table[labels[0]])] + Entries(labels[1..], table)
  }

  /** The labels and the table determine the entries. */
  lemma EntriesUnique(a: seq<PayloadEntry>, b: seq<PayloadEntry>, labels: seq<string>, table: map<string, string>)
    requires EntriesFor(a, labels, table) && EntriesFor(b, labels, table)
    ensures a == b
  {
  }

  function PayloadWith(elementLabels: seq<string>, opts: seq<string>, et: map<string, string>, ot: map<string, string>)
    : Result<Payload, string>
  {
    match LabelErrorWith(elementLabels, opts, et, ot)
    case Some(msg) => Err(msg)
    case None => Ok(Payload(Entries(elementLabels, et), Entries(opts, ot)))
  }

  /** Whatever meets `BuildPayload`'s contract (over any tables) is `PayloadWith`'s answer. */
  lemma PayloadWithAgrees(elementLabels: seq<string>, opts: seq<string>, et: map<string, string>, ot: map<string, string>,
                          r: Result<Payload, string>)
    requires var e := FirstUnknown(elementLabels, et);
      e < |elementLabels| ==> r == Err("Unknown ai-raison element label: " + elementLabels[e])
    requires var e, o := FirstUnknown(elementLabels, et), FirstUnknown(opts, ot);
      e == |elementLabels| && o < |opts| ==> r == Err("Unknown ai-raison option label: " + opts[o])
    requires r.Ok? <==> ((forall l :: l in elementLabels ==> l in et) && (forall l :: l in opts ==> l in ot))
    requires r.Ok? ==> (EntriesFor(r.value.elements, elementLabels, et) && EntriesFor(r.value.options, opts, ot))
    ensures r == PayloadWith(elementLabels, opts, et, ot)
  {
    if r.Ok? {
      EntriesUnique(r.value.elements, Entries(elementLabels, et), elementLabels, et);
      EntriesUnique(r.value.options, Entries(opts, ot), opts, ot);
    }
  }

  /** The label error of `_build_payload` with the engine's tables. */
  function LabelError(elementLabels: seq<string>, optionLabels: Option<seq<string>>): Option<string> {
    LabelErrorWith(elementLabels, RequestedOptions(optionLabels), ElementIds, OptionIds)
  }

  /** What `_build_payload` returns or raises. */
  function PayloadFor(elementLabels: seq<string>, optionLabels: Option<seq<string>>): Result<Payload, string> {
    PayloadWith(elementLabels, RequestedOptions(optionLabels), ElementIds, OptionIds)
  }

  /**
   * One item of the engine's reply. `isSolution` is true when the item's
   * `isSolution` field is the JSON literal `true`; `optionLabel` is `option.label`,
   * `None` when the option or its label is missing or null; `explanation` is
   * `None` when that field is missing or null.
   */
  datatype Item = Item(isSolution: bool, optionLabel: Option<string>, explanation: Option<seq<string>>)

  /** The engine's decoded reply: a JSON list of items, or any other JSON value (named by its Python type). */
  datatype EngineResponse = NotAList(typeName: string) | Items(items: seq<Item>)

  /** The stripped label of an item, empty when it has none. */
  function LabelOf(it: Item): string {
    Strip(it.optionLabel.GetOr(""))
  }

  /** An item counts when it is flagged as a solution and has a non-empty stripped label. */
  predicate Qualifies(it: Item) {
    it.isSolution && LabelOf(it) != ""
  }

  function ExplanationOf(it: Item): seq<string> {
    it.explanation.GetOr([])
  }

  /** The labels of the qualifying items, in reply order, repeats included. */
  function SolutionLabels(items: seq<Item>): (r: seq<string>)
    ensures forall l :: l in r ==> l != ""
  {
    if items == [] then []
    else
      var last := items[|items| - 1];
      SolutionLabels(items[..|items| - 1]) + (if Qualifies(last) then [LabelOf(last)] else [])
  }

  /** The explanation map: one entry per qualifying label, a later item overwriting an earlier one. */
  function Explanations(items: seq<Item>): map<string, seq<string>> {
    if items == [] then map[]
    else
      var last := items[|items| - 1];
      var m := Explanations(items[..|items| - 1]);
      if Qualifies(last) then m[LabelOf(last) := ExplanationOf(last)] else m
  }

  /** The chosen solutions: the distinct qualifying labels, or `route_fast` when there are none. */
  function ChosenSolutions(items: seq<Item>): seq<string> {
    var d := Distinct(SolutionLabels(items));
    if d == [] then ["route_fast"] else d
  }

  /** The loop over the reply's items that fills `solutions` and `explanations`. */
  method CollectSolutions(items: seq<Item>) returns (solutions: seq<string>, explanations: map<string, seq<string>>)
    ensures solutions == SolutionLabels(items)
    ensures explanations == Explanations(items)
  {
    solutions, explanations := [], map[];
    var i := 0;
    while i < |items|
      invariant 0 <= i <= |items|
      invariant solutions == SolutionLabels(items[..i])
      invariant explanations == Explanations(items[..i])
    {
      var item := items[i];
      assert items[..i + 1][..i] == items[..i];
      if item.isSolution {
        var lab := Strip(item.optionLabel.GetOr(""));
        if lab != "" {
          solutions := solutions + [lab];
          explanations := explanations[lab := item.explanation.GetOr([])];
        }
      }
      i := i + 1;
    }
    assert items[..i] == items;
  }

  /** The decision `decide` returns on a reply it accepts. */
  datatype Decision = Decision(solutionLabels: seq<string>, explanations: map<string, seq<string>>, raw: seq<Item>)

  function NotAListMessage(typeName: string): string {
    "Unexpected ai-raison response (expected list). Got: <class '" + typeName + "'>"
  }

  /** The reply-parsing part of `decide`: a reply that is not a list raises. */
  method ParseDecision(raw: EngineResponse) returns (r: Result<Decision, string>)
    ensures raw.NotAList? ==> r == Err(NotAListMessage(raw.typeName))
    ensures raw.Items? ==> r.Ok? && r.value.raw == raw.items
    ensures raw.Items? ==> r.value.solutionLabels == ChosenSolutions(raw.items)
    ensures raw.Items? ==> r.value.explanations == Explanations(raw.items)
  {
    if raw.NotAList? {
      return Err(NotAListMessage(raw.typeName));
    }
    var solutions, explanations := CollectSolutions(raw.items);
    var ordered := RemoveDuplicates(solutions);
    if ordered == [] {
      ordered := ["route_fast"];
    }
    r := Ok(Decision(ordered, explanations, raw.items));
  }

  /** A label is a solution exactly when some item qualifies with that stripped label. */
  lemma {:induction false} SolutionLabelsMembers(items: seq<Item>, l: string)
    ensures l in SolutionLabels(items) <==> exists i :: 0 <= i < |items| && QualifiesWith(items[i], l)
  {
    if l in SolutionLabels(items) {
      var i := SolutionWitness(items, l);
    }
    if exists i :: 0 <= i < |items| && QualifiesWith(items[i], l) {
      var i :| 0 <= i < |items| && QualifiesWith(items[i], l);
      SolutionOfQualifying(items, i);
    }
  }

  predicate QualifiesWith(it: Item, l: string) {
    Qualifies(it) && LabelOf(it) == l
  }

  lemma {:induction false} SolutionWitness(items: seq<Item>, l: string) returns (i: nat)
    requires l in SolutionLabels(items)
    ensures i < |items| && QualifiesWith(items[i], l)
  {
    var p := items[..|items| - 1];
    if l in SolutionLabels(p) {
      i := SolutionWitness(p, l);
      assert items[i] == p[i];
    } else {
      i := |items| - 1;
    }
  }

  lemma {:induction false} SolutionOfQualifying(items: seq<Item>, i: nat)
    requires i < |items| && Qualifies(items[i])
    ensures LabelOf(items[i]) in SolutionLabels(items)
  {
    var p := items[..|items| - 1];
    if i < |p| {
      assert p[i] == items[i];
      SolutionOfQualifying(p, i);
    }
  }

  /** The explanation keys are exactly the qualifying labels. */
  lemma {:induction false} ExplanationKeys(items: seq<Item>)
    ensures forall l :: l in Explanations(items) <==> l in SolutionLabels(items)
  {
    if items != [] {
      ExplanationKeys(items[..|items| - 1]);
    }
  }

  /** Each label's explanation is that of the last qualifying item carrying the label. */
  lemma {:induction false} ExplanationOfLastOccurrence(items: seq<Item>, i: nat)
    requires i < |items| && Qualifies(items[i])
    requires forall j :: i < j < |items| ==> !(Qualifies(items[j]) && LabelOf(items[j]) == LabelOf(items[i]))
    ensures LabelOf(items[i]) in Explanations(items)
    ensures Explanations(items)[LabelOf(items[i])] == ExplanationOf(items[i])
  {
    var p := items[..|items| - 1];
    if i < |p| {
      assert p[i] == items[i];
      ExplanationOfLastOccurrence(p, i);
    }
  }

  /**
   * `decide` always returns solutions: never empty, without repeats, in
   * first-seen order, exactly the qualifying labels, or just `route_fast`.
   */
  lemma ChosenSolutionsShape(items: seq<Item>)
    ensures ChosenSolutions(items) != [] && NoDup(ChosenSolutions(items))
    ensures SolutionLabels(items) == [] ==> ChosenSolutions(items) == ["route_fast"]
    ensures SolutionLabels(items) != [] ==> ChosenSolutions(items) == Distinct(SolutionLabels(items))
    ensures SolutionLabels(items) != [] ==>
      forall l :: l in ChosenSolutions(items) <==> exists i :: 0 <= i < |items| && QualifiesWith(items[i], l)
  {
    if SolutionLabels(items) != [] {
      assert SolutionLabels(items)[0] in Distinct(SolutionLabels(items));
      forall l {
        SolutionLabelsMembers(items, l);
      }
    }
  }

  /** With nothing qualifying, `route_fast` is chosen but gets no explanation entry. */
  lemma FallbackHasNoExplanation(items: seq<Item>)
    requires forall i :: 0 <= i < |items| ==> !Qualifies(items[i])
    ensures ChosenSolutions(items) == ["route_fast"]
    ensures Explanations(items) == map[]
  {
    if SolutionLabels(items) != [] {
      var l := SolutionLabels(items)[0];
      SolutionLabelsMembers(items, l);
      assert false;
    }
    ExplanationKeys(items);
    assert forall l :: l !in Explanations(items);
  }

  // ---------------------------------------------------------------- decide

  /** One exchange with the engine: the request failed, or it came back with a decoded reply. */
  datatype EngineOutcome = Unreachable(error: string) | Replied(response: EngineResponse)

  /** What `decide` returns or raises, given what the engine answers to each payload. */
  function DecisionOf(elementLabels: seq<string>, optionLabels: Option<seq<string>>, engine: Payload -> EngineOutcome)
    : Result<Decision, string>
  {
    match PayloadFor(elementLabels, optionLabels)
    case Err(msg) => Err(msg)
    case Ok(payload) =>
      match engine(payload)
      case Unreachable(e) => Err(e)
      case Replied(NotAList(t)) => Err(NotAListMessage(t))
      case Replied(Items(items)) => Ok(Decision(ChosenSolutions(items), Explanations(items), items))
  }

  /** `decide`: build the payload (which may raise), send it, and parse the reply (which may raise). */
  method Decide(elementLabels: seq<string>, optionLabels: Option<seq<string>>, engine: Payload -> EngineOutcome)
    returns (r: Result<Decision, string>)
    ensures r == DecisionOf(elementLabels, optionLabels, engine)
  {
    var payload := BuildPayload(elementLabels, optionLabels);
    if payload.Err? {
      return Err(payload.error);
    }
    match engine(payload.value)
    case Unreachable(e) =>
      r := Err(e);
    case Replied(response) =>
      r := ParseDecision(response);
  }

  /**
   * An unknown label is reported before anything is sent: the outcome is the
   * label error whatever the engine would have answered.
   */
  lemma UnknownLabelBeforeRequest(elementLabels: seq<string>, optionLabels: Option<seq<string>>,
                                  engine1: Payload -> EngineOutcome, engine2: Payload -> EngineOutcome)
    requires LabelError(elementLabels, optionLabels).Some?
    ensures DecisionOf(elementLabels, optionLabels, engine1) == Err(LabelError(elementLabels, optionLabels).value)
    ensures DecisionOf(elementLabels, optionLabels, engine1) == DecisionOf(elementLabels, optionLabels, engine2)
  {
  }

  /**
   * `decide` succeeds exactly when every label is known and the engine replies
   * with a list; its solutions are then never empty and free of repeats.
   */
  lemma DecisionSucceeds(elementLabels: seq<string>, optionLabels: Option<seq<string>>, engine: Payload -> EngineOutcome)
    ensures DecisionOf(elementLabels, optionLabels, engine).Ok? <==>
      LabelError(elementLabels, optionLabels).None? &&
      engine(PayloadFor(elementLabels, optionLabels).value).Replied? &&
      engine(PayloadFor(elementLabels, optionLabels).value).response.Items?
    ensures DecisionOf(elementLabels, optionLabels, engine).Ok? ==>
      var d := DecisionOf(elementLabels, optionLabels, engine).value;
      && d.solutionLabels != [] && NoDup(d.solutionLabels)
      && d.solutionLabels == ChosenSolutions(d.raw) && d.explanations == Explanations(d.raw)
  {
    var d := DecisionOf(elementLabels, optionLabels, engine);
    if d.Ok? {
      ChosenSolutionsShape(d.value.raw);
    }
  }

  /** Without option labels, the payload offers all six options in table order, each with its identifier. */
  lemma DefaultOptions(elementLabels: seq<string>)
    requires LabelError(elementLabels, None).None?
    ensures EntriesFor(PayloadFor(elementLabels, None).value.options, OptionLabels, OptionIds)
  {
  }
}
