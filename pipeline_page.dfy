/**
 * The pipeline board: the search filter over deal titles, the four stage
 * columns, the column totals, the activities shown on a card, and what a
 * drag-and-drop ends in. Lower-casing is ASCII only.
 */
module PipelinePage {
  import opened Wrappers
  import opened Domain
  import opened Json
  import opened Seqs
  import opened Store
  import opened Dashboard

  /** The board's columns, in display order. */
  const Stages: seq<string> := ["lead", "proposal", "negotiation", "closed"]

  /** `toLowerCase` on one character, for the ASCII letters. */
  function Lower(c: char): (r: char)
    ensures 'A' <= c <= 'Z' ==> r as int == c as int + 32
    ensures !('A' <= c <= 'Z') ==> r == c
  {
    if 'A' <= c <= 'Z' then (c as int + 32) as char else c
  }

  function LowerStr(s: string): (r: string)
    ensures |r| == |s| && forall i :: 0 <= i < |s| ==> r[i] == Lower(s[i])
  {
    seq(|s|, i requires 0 <= i < |s| => Lower(s[i]))
  }

  /** `pattern` occurs in `text` starting at offset `i`. */
  predicate OccursAt(text: string, pattern: string, i: int) {
    0 <= i && i + |pattern| <= |text| && text[i..i + |pattern|] == pattern
  }

  /** `text.includes(pattern)`: `pattern` occurs at some offset of `text`. */
  function Contains(text: string, pattern: string): (r: bool)
    ensures r <==> exists i :: OccursAt(text, pattern, i)
  {
    if pattern <= text then
      assert OccursAt(text, pattern, 0);
      true
    else if text == [] then false
    else
      var r := Contains(text[1..], pattern);
      if r then
        var i :| OccursAt(text[1..], pattern, i);
        assert OccursAt(text, pattern, i + 1);
        true
      else
        assert forall i :: !OccursAt(text, pattern, i) by {
          forall i ensures !OccursAt(text, pattern, i) {
            if i > 0 {
              ShiftOccurrence(text, pattern, i);
            }
          }
        }
        false
  }

  /** An occurrence past the first character is an occurrence in the rest of the text. */
  lemma ShiftOccurrence(text: string, pattern: string, i: int)
    requires text != [] && i > 0
    ensures OccursAt(text, pattern, i) <==> OccursAt(text[1..], pattern, i - 1)
  {
    if i + |pattern| <= |text| {
      assert text[i..i + |pattern|] == text[1..][i - 1..i - 1 + |pattern|];
    }
  }

  /** The search predicate: the lower-cased title contains the lower-cased term. */
  function TitleMatches(term: string): Deal -> bool {
    (d: Deal) => Contains(LowerStr(d.title), LowerStr(term))
  }

  /** `filteredDeals`: the deals whose title contains the term, ignoring case, in their order. */
  function FilteredDeals(deals: seq<Deal>, term: string): (r: seq<Deal>)
    ensures forall d :: d in r <==> d in deals && Contains(LowerStr(d.title), LowerStr(term))
    ensures |r| <= |deals|
  {
    Filter(deals, TitleMatches(term))
  }

  /** An empty search term keeps every deal, in order. */
  lemma EmptyTermKeepsAll(deals: seq<Deal>)
    ensures FilteredDeals(deals, "") == deals
  {
    forall d | d in deals ensures TitleMatches("")(d) {
      assert LowerStr(d.title)[0..0] == LowerStr("");
    }
    FilterAll(deals, TitleMatches(""));
  }

  /** The search ignores ASCII case: "ACME" finds a deal titled "acme renewal". */
  lemma SearchIgnoresCase(d: Deal)
    requires d.title == "acme renewal"
    ensures TitleMatches("ACME")(d)
  {
    assert LowerStr("ACME") == "acme";
    assert LowerStr(d.title)[0..4] == "acme";
  }

  /** `deal.stage === stage`. */
  function StageIs(stage: string): Deal -> bool {
    (d: Deal) => d.stage == stage
  }

  /** One column of the board: the filtered deals in that stage, in order. */
  function Column(filtered: seq<Deal>, stage: string): (r: seq<Deal>)
    ensures forall d :: d in r <==> d in filtered && d.stage == stage
  {
    Filter(filtered, StageIs(stage))
  }

  /** `dealsByStage`: one column per stage, filled in a loop over the stages. */
  method DealsByStage(filtered: seq<Deal>) returns (columns: map<string, seq<Deal>>)
    ensures columns.Keys == DealStages
    ensures forall s :: s in columns ==> columns[s] == Column(filtered, s)
  {
    columns := map[];
    var i := 0;
    while i < |Stages|
      invariant 0 <= i <= |Stages|
      invariant columns.Keys == set k | 0 <= k < i :: Stages[k]
      invariant forall s :: s in columns ==> columns[s] == Column(filtered, s)
    {
      columns := columns[Stages[i] := Column(filtered, Stages[i])];
      i := i + 1;
    }
    assert forall s :: s in DealStages <==> exists k :: 0 <= k < |Stages| && Stages[k] == s by {
      assert Stages[0] == "lead" && Stages[1] == "proposal" && Stages[2] == "negotiation" && Stages[3] == "closed";
    }
  }

  /** A deal sits in at most one column, and a deal with an unknown stage in none. */
  lemma ColumnsDisjoint(filtered: seq<Deal>, d: Deal)
    ensures forall a, b :: d in Column(filtered, a) && d in Column(filtered, b) ==> a == b
    ensures d.stage !in DealStages ==> forall s :: s in DealStages ==> d !in Column(filtered, s)
  {
  }

  /** A column of a non-empty list: the first deal, when it is in that stage, then the column of the rest. */
  lemma ColumnCons(s: seq<Deal>, stage: string)
    requires s != []
    ensures |Column(s, stage)| == (if s[0].stage == stage then 1 else 0) + |Column(s[1..], stage)|
    ensures TotalValue(Column(s, stage)) == (if s[0].stage == stage then s[0].value else 0) + TotalValue(Column(s[1..], stage))
  {
    if s[0].stage == stage {
      assert Column(s, stage) == [s[0]] + Column(s[1..], stage);
      SumAppend([s[0]], Column(s[1..], stage), DealValue);
      assert [s[0]][1..] == [];
    } else {
      assert Column(s, stage) == Column(s[1..], stage);
    }
  }

  /** A valid stage equals exactly one of the four. */
  lemma OneStage(stage: string)
    requires stage in DealStages
    ensures (if stage == "lead" then 1 else 0) + (if stage == "proposal" then 1 else 0)
      + (if stage == "negotiation" then 1 else 0) + (if stage == "closed" then 1 else 0) == 1
  {
  }

  /** When every stage is valid, the four columns hold every filtered deal: their sizes add up to the whole. */
  lemma {:induction false} ColumnsCover(filtered: seq<Deal>)
    requires forall d :: d in filtered ==> d.stage in DealStages
    ensures |Column(filtered, "lead")| + |Column(filtered, "proposal")|
      + |Column(filtered, "negotiation")| + |Column(filtered, "closed")| == |filtered|
  {
    if filtered != [] {
      ColumnsCover(filtered[1..]);
      ColumnCons(filtered, "lead");
      ColumnCons(filtered, "proposal");
      ColumnCons(filtered, "negotiation");
      ColumnCons(filtered, "closed");
      assert filtered[0] in filtered;
      OneStage(filtered[0].stage);
    }
  }

  /** When every stage is valid, the four column totals add up to the total of the filtered deals. */
  lemma {:induction false} ColumnTotalsAddUp(filtered: seq<Deal>)
    requires forall d :: d in filtered ==> d.stage in DealStages
    ensures TotalValue(Column(filtered, "lead")) + TotalValue(Column(filtered, "proposal"))
      + TotalValue(Column(filtered, "negotiation")) + TotalValue(Column(filtered, "closed")) == TotalValue(filtered)
  {
    if filtered != [] {
      ColumnTotalsAddUp(filtered[1..]);
      ColumnCons(filtered, "lead");
      ColumnCons(filtered, "proposal");
      ColumnCons(filtered, "negotiation");
      ColumnCons(filtered, "closed");
      assert filtered[0] in filtered;
      OneStage(filtered[0].stage);
    }
  }

  /** `activity.dealId === dealId`. */
  function ForDeal(dealId: Id): Activity -> bool {
    (a: Activity) => a.dealId == Some(dealId)
  }

  /** `getActivitiesForDeal`: the activities linked to the deal, in order. */
  function ActivitiesForDeal(activities: seq<Activity>, dealId: Id): (r: seq<Activity>)
    ensures forall a :: a in r <==> a in activities && a.dealId == Some(dealId)
  {
    Filter(activities, ForDeal(dealId))
  }

  /** What a card lists: the first three of the deal's activities. */
  function CardActivities(activities: seq<Activity>, dealId: Id): (r: seq<Activity>)
    ensures |r| <= |ActivitiesForDeal(activities, dealId)|
    ensures |r| == if |ActivitiesForDeal(activities, dealId)| < 3 then |ActivitiesForDeal(activities, dealId)| else 3
    ensures r == ActivitiesForDeal(activities, dealId)[..|r|]
    ensures forall a :: a in r ==> a in activities && a.dealId == Some(dealId)
  {
    Take(ActivitiesForDeal(activities, dealId), 3)
  }

  /** Where a dragged card was picked up or dropped: a column and a position in it. */
  datatype Location = Location(droppableId: string, index: int)

  /** The drag-and-drop library's report: `destination` is absent for a drop outside every column. */
  datatype DropResult = DropResult(source: Location, destination: Option<Location>, draggableId: string)

  datatype DragOutcome = Ignore | Move(dealId: string, newStage: string)

  /** The guards of `handleDragEnd`: no destination, or the same column and position, does nothing. */
  function DragDecision(result: DropResult): (r: DragOutcome)
    ensures r.Ignore? <==> result.destination.None? || result.destination.value == result.source
    ensures r.Move? ==> r.dealId == result.draggableId && r.newStage == result.destination.value.droppableId
  {
    match result.destination
    case None => Ignore
    case Some(dest) =>
      if dest.droppableId == result.source.droppableId && dest.index == result.source.index then Ignore
      else Move(result.draggableId, dest.droppableId)
  }

  /** A reorder inside one column still moves the deal, to the stage it is already in. */
  lemma ReorderStillMoves(result: DropResult)
    requires result.destination.Some?
    requires result.destination.value.droppableId == result.source.droppableId
    requires result.destination.value.index != result.source.index
    ensures DragDecision(result) == Move(result.draggableId, result.source.droppableId)
  {
  }

  /**
   * `handleDragEnd`: ask the store to move the deal to the destination
   * column unless the guards say otherwise, and give the request that
   * move sends; a failed move sets the page's error message.
   */
  method HandleDragEnd(store: CrmStore, result: DropResult, reply: Response<Deal>)
    returns (request: Option<Payload>, pageError: Option<string>)
    modifies store`deals
    ensures DragDecision(result).Ignore? ==> request.None? && store.deals == old(store.deals) && pageError.None?
    ensures DragDecision(result).Move? ==>
      request == Some(map["id" := Str(result.draggableId), "stage" := Str(result.destination.value.droppableId)])
    ensures DragDecision(result).Move? && reply.Ok? ==> pageError.None?
    ensures DragDecision(result).Move? && reply.Ok? ==>
      store.deals == ReplaceWhere(old(store.deals), DealKey, result.draggableId, reply.value)
    ensures DragDecision(result).Move? && reply.Err? ==>
      pageError == Some("Failed to move deal. Please try again.") && store.deals == old(store.deals)
  {
    var decision := DragDecision(result);
    if decision.Ignore? {
      return None, None;
    }
    var sent, thrown := store.MoveDeal(decision.dealId, decision.newStage, reply);
    request := Some(sent);
    pageError := if thrown.Some? then Some("Failed to move deal. Please try again.") else None;
  }

  /** Moving a lead to `proposal` empties the lead column and puts the deal in the proposal column. */
  lemma MoveScenario(d1: Deal, d2: Deal, moved: Deal)
    requires d1.stage == "lead" && d2.stage == "closed" && d1.id != d2.id
    requires moved == d1.(stage := "proposal")
    ensures var after := ReplaceWhere([d1, d2], DealKey, d1.id, moved);
      && Column(after, "lead") == []
      && moved in Column(after, "proposal")
      && TotalValue(after) == TotalValue([d1, d2])
  {
    var after := ReplaceWhere([d1, d2], DealKey, d1.id, moved);
    assert after == [moved, d2];
    assert after[1..] == [d2] && after[1..][1..] == [];
    assert [d1, d2][1..] == [d2];
    assert Column([d2], "lead") == Column([], "lead") == [];
    assert Column(after, "lead") == Column([d2], "lead");
    assert TotalValue([d2]) == d2.value + TotalValue([]);
    assert TotalValue(after) == moved.value + TotalValue([d2]);
    assert TotalValue([d1, d2]) == d1.value + TotalValue([d2]);
  }
}
