/** Budgeted rendering of the persona context and the escaping of its text
    (crates/yunxi-persona/src/compiler.rs). */
module Persona {
  import opened Wrappers

  datatype ContextLine = ContextLine(content: string, required: bool, dropPriority: nat, included: bool)

  datatype ContextBlock = ContextBlock(name: string, lines: seq<ContextLine>)

  /** A line is named by its block index and its index inside the block. */
  datatype Position = Position(block: nat, line: nat)

  // ------------------------------------------------------------------
  // Rendering
  // ------------------------------------------------------------------

  function Marker(name: string): string {
    "<truncated section=\"" + name + "\" />"
  }

  function IncludedContents(lines: seq<ContextLine>): seq<string> {
    if lines == [] then []
    else (if lines[0].included then [lines[0].content] else []) + IncludedContents(lines[1..])
  }

  predicate HasDropped(lines: seq<ContextLine>) {
    exists l :: 0 <= l < |lines| && !lines[l].included
  }

  function BlockLines(block: ContextBlock): seq<string> {
    ["<" + block.name + ">"]
    + IncludedContents(block.lines)
    + (if HasDropped(block.lines) then [Marker(block.name)] else [])
    + ["</" + block.name + ">"]
  }

  function AllBlockLines(blocks: seq<ContextBlock>): seq<string> {
    if blocks == [] then [] else BlockLines(blocks[0]) + AllBlockLines(blocks[1..])
  }

  function OutputLines(rootOpen: string, rootClose: string, blocks: seq<ContextBlock>): seq<string> {
    [rootOpen] + AllBlockLines(blocks) + [rootClose]
  }

  function Join(lines: seq<string>): string {
    if lines == [] then ""
    else if |lines| == 1 then lines[0]
    else lines[0] + "\n" + Join(lines[1..])
  }

  function Render(rootOpen: string, rootClose: string, blocks: seq<ContextBlock>): string {
    Join(OutputLines(rootOpen, rootClose, blocks))
  }

  // ------------------------------------------------------------------
  // Droppable lines and the order in which they go
  // ------------------------------------------------------------------

  ghost predicate InDocument(blocks: seq<ContextBlock>, p: Position) {
    p.block < |blocks| && p.line < |blocks[p.block].lines|
  }

  function LineAt(blocks: seq<ContextBlock>, p: Position): ContextLine
    requires p.block < |blocks| && p.line < |blocks[p.block].lines|
  {
    blocks[p.block].lines[p.line]
  }

  ghost predicate Droppable(blocks: seq<ContextBlock>, p: Position) {
    InDocument(blocks, p) && LineAt(blocks, p).included && !LineAt(blocks, p).required
  }

  /** Document order. */
  predicate Earlier(p: Position, q: Position) {
    p.block < q.block || (p.block == q.block && p.line < q.line)
  }

  /** `p` goes before `q`: lower priority first, and on a tie the later line first. */
  ghost predicate DropsBefore(blocks: seq<ContextBlock>, p: Position, q: Position)
    requires InDocument(blocks, p) && InDocument(blocks, q)
  {
    LineAt(blocks, p).dropPriority < LineAt(blocks, q).dropPriority
    || (LineAt(blocks, p).dropPriority == LineAt(blocks, q).dropPriority && Earlier(q, p))
  }

  /** `dropped` is an initial segment of the drop order on the droppable lines. */
  ghost predicate InitialSegment(blocks: seq<ContextBlock>, dropped: set<Position>) {
    && (forall p :: p in dropped ==> Droppable(blocks, p))
    && (forall p, q :: p in dropped && Droppable(blocks, q) && q !in dropped ==> DropsBefore(blocks, p, q))
  }

  /** The document with the lines of `dropped` marked as not included. */
  ghost function Without(blocks: seq<ContextBlock>, dropped: set<Position>): (r: seq<ContextBlock>)
    ensures |r| == |blocks|
    ensures forall b :: 0 <= b < |blocks| ==> r[b].name == blocks[b].name && |r[b].lines| == |blocks[b].lines|
    ensures forall b, l :: 0 <= b < |blocks| && 0 <= l < |blocks[b].lines| ==>
              r[b].lines[l] == (if Position(b, l) in dropped then blocks[b].lines[l].(included := false)
                                else blocks[b].lines[l])
  {
    seq(|blocks|, b requires 0 <= b < |blocks| =>
      ContextBlock(blocks[b].name, seq(|blocks[b].lines|, l requires 0 <= l < |blocks[b].lines| =>
        if Position(b, l) in dropped then blocks[b].lines[l].(included := false) else blocks[b].lines[l])))
  }

  /** What a budgeted rendering has to drop: an initial segment of the drop order
      that fits (or is everything droppable) while every shorter one is over budget. */
  ghost predicate MinimalDrop(rootOpen: string, rootClose: string, blocks: seq<ContextBlock>,
                              budget: nat, dropped: set<Position>)
  {
    && InitialSegment(blocks, dropped)
    && (|Render(rootOpen, rootClose, Without(blocks, dropped))| <= budget
        || forall p :: Droppable(blocks, p) ==> p in dropped)
    && (forall shorter :: InitialSegment(blocks, shorter) && shorter < dropped ==>
          |Render(rootOpen, rootClose, Without(blocks, shorter))| > budget)
  }

  /** Any two initial segments are nested, since the drop order is total. */
  lemma SegmentsAreNested(blocks: seq<ContextBlock>, s: set<Position>, t: set<Position>)
    requires InitialSegment(blocks, s) && InitialSegment(blocks, t)
    ensures s <= t || t <= s
  {
    if !(s <= t) {
      var p :| p in s && p !in t;
      forall q | q in t ensures q in s {
        assert DropsBefore(blocks, q, p);
      }
    }
  }

  /** So the lines that a budget forces out are determined by the document and the budget. */
  lemma MinimalDropIsUnique(rootOpen: string, rootClose: string, blocks: seq<ContextBlock>, budget: nat,
                            s: set<Position>, t: set<Position>)
    requires MinimalDrop(rootOpen, rootClose, blocks, budget, s)
    requires MinimalDrop(rootOpen, rootClose, blocks, budget, t)
    ensures s == t
  {
    SegmentsAreNested(blocks, s, t);
    assert !(s < t) && !(t < s);
  }

  lemma OnlyMinimalDrop(rootOpen: string, rootClose: string, blocks: seq<ContextBlock>, budget: nat, s: set<Position>)
    requires MinimalDrop(rootOpen, rootClose, blocks, budget, s)
    ensures forall t :: MinimalDrop(rootOpen, rootClose, blocks, budget, t) ==> t == s
  {
    forall t | MinimalDrop(rootOpen, rootClose, blocks, budget, t) ensures t == s {
      MinimalDropIsUnique(rootOpen, rootClose, blocks, budget, t, s);
    }
  }

  /** The candidate scan: the last droppable line among those of lowest priority. */
  method PickCandidate(blocks: seq<ContextBlock>) returns (candidate: Option<Position>)
    ensures candidate.None? ==> forall p :: !Droppable(blocks, p)
    ensures candidate.Some? ==>
              && Droppable(blocks, candidate.value)
              && forall q :: Droppable(blocks, q) && q != candidate.value ==>
                               DropsBefore(blocks, candidate.value, q)
  {
    candidate := None;
    for b := 0 to |blocks|
      invariant candidate.None? ==> forall q :: Droppable(blocks, q) ==> q.block >= b
      invariant candidate.Some? ==>
                  && Droppable(blocks, candidate.value)
                  && candidate.value.block < b
                  && forall q :: Droppable(blocks, q) && q != candidate.value && q.block < b ==>
                                   DropsBefore(blocks, candidate.value, q)
    {
      for l := 0 to |blocks[b].lines|
        invariant candidate.None? ==>
                    forall q :: Droppable(blocks, q) ==> !Earlier(q, Position(b, l))
        invariant candidate.Some? ==>
                    && Droppable(blocks, candidate.value)
                    && Earlier(candidate.value, Position(b, l))
                    && forall q :: Droppable(blocks, q) && q != candidate.value && Earlier(q, Position(b, l)) ==>
                                     DropsBefore(blocks, candidate.value, q)
      {
        var line := blocks[b].lines[l];
        if line.included && !line.required
           && (candidate.None? || line.dropPriority <= LineAt(blocks, candidate.value).dropPriority)
        {
          candidate := Some(Position(b, l));
        }
      }
    }
  }

  lemma WithoutOneMore(blocks: seq<ContextBlock>, dropped: set<Position>, p: Position)
    requires InDocument(blocks, p)
    ensures Without(blocks, dropped + {p}) ==
            var now := Without(blocks, dropped);
            now[p.block := now[p.block].(lines := now[p.block].lines[p.line := LineAt(now, p).(included := false)])]
  {
    var now := Without(blocks, dropped);
    var lines := now[p.block].lines[p.line := LineAt(now, p).(included := false)];
    var next := now[p.block := now[p.block].(lines := lines)];
    var goal := Without(blocks, dropped + {p});
    forall b | 0 <= b < |blocks| ensures goal[b] == next[b] {
      assert goal[b].lines == next[b].lines;
    }
    assert goal == next;
  }

  /** The next candidate extends the initial segment, and nothing lies in between. */
  lemma SegmentExtends(blocks: seq<ContextBlock>, dropped: set<Position>, p: Position)
    requires InitialSegment(blocks, dropped)
    requires Droppable(Without(blocks, dropped), p)
    requires forall q :: Droppable(Without(blocks, dropped), q) && q != p ==>
                           DropsBefore(Without(blocks, dropped), p, q)
    ensures p !in dropped && InitialSegment(blocks, dropped + {p})
    ensures forall shorter :: InitialSegment(blocks, shorter) && shorter < dropped + {p} ==> shorter <= dropped
  {
    var now := Without(blocks, dropped);
    assert now[p.block].lines[p.line].included;
    forall q | Droppable(blocks, q) && q !in dropped + {p} ensures DropsBefore(blocks, p, q) {
      assert LineAt(now, q) == LineAt(blocks, q);
      assert Droppable(now, q);
    }
    forall shorter | InitialSegment(blocks, shorter) && shorter < dropped + {p} ensures shorter <= dropped {
      var q :| q in dropped + {p} && q !in shorter;
      if q != p {
        assert DropsBefore(blocks, q, p);
      }
    }
  }

  lemma WithoutNothing(blocks: seq<ContextBlock>)
    ensures Without(blocks, {}) == blocks
  {
    forall b | 0 <= b < |blocks| ensures Without(blocks, {})[b] == blocks[b] {
      assert Without(blocks, {})[b].lines == blocks[b].lines;
    }
  }

  /** With nothing left to pick, everything droppable has been dropped. */
  lemma NothingIsLeft(blocks: seq<ContextBlock>, dropped: set<Position>)
    requires forall p :: !Droppable(Without(blocks, dropped), p)
    ensures forall p :: Droppable(blocks, p) ==> p in dropped
  {
    forall p | Droppable(blocks, p) ensures p in dropped {
      if p !in dropped {
        assert LineAt(Without(blocks, dropped), p) == LineAt(blocks, p);
        assert Droppable(Without(blocks, dropped), p);
      }
    }
  }

  // ------------------------------------------------------------------
  // The text
  // ------------------------------------------------------------------

  /** The text is these lines with a line break between each two of them; line k starts at `starts[k]`. */
  ghost predicate IsTextOf(lines: seq<string>, starts: seq<nat>, text: string) {
    && |starts| == |lines| + 1 && starts[0] == 0 && starts[|lines|] == |text| + 1
    && forall k :: 0 <= k < |lines| ==> StandsAt(lines[k], text, starts[k], starts[k + 1])
  }

  /** The line stands at this place, and a line break follows unless the text ends there. */
  predicate StandsAt(line: string, text: string, start: nat, next: nat) {
    && start + |line| + 1 == next <= |text| + 1
    && text[start..next - 1] == line
    && (next <= |text| ==> text[next - 1] == '\n')
  }

  /** `kept` lists the lines of block b that are in the document and not dropped, in order. */
  ghost predicate KeptOf(block: ContextBlock, b: nat, dropped: set<Position>, kept: seq<nat>) {
    && (forall j, k :: 0 <= j < k < |kept| ==> kept[j] < kept[k])
    && forall l: nat :: l in kept <==> l < |block.lines| && block.lines[l].included && Position(b, l) !in dropped
  }

  /** Block b is shown between its tags: the contents of its kept lines, one to a line, and after them the
      marker exactly if a line is missing. */
  ghost predicate ShowsBlock(block: ContextBlock, b: nat, dropped: set<Position>, kept: seq<nat>, shown: seq<string>) {
    && KeptOf(block, b, dropped, kept)
    && |shown| == |kept| + (if |kept| < |block.lines| then 3 else 2)
    && shown[0] == "<" + block.name + ">" && shown[|shown| - 1] == "</" + block.name + ">"
    && (forall k :: 0 <= k < |kept| && kept[k] < |block.lines| ==> shown[k + 1] == block.lines[kept[k]].content)
    && (|kept| < |block.lines| ==> shown[|kept| + 1] == "<truncated section=\"" + block.name + "\" />")
  }

  /** The root tags are around the blocks, which follow each other in order; block b starts at line `first[b]`. */
  ghost predicate IsLayout(rootOpen: string, rootClose: string, blocks: seq<ContextBlock>, dropped: set<Position>,
                           lines: seq<string>, first: seq<nat>)
  {
    && |first| == |blocks| + 1 && first[0] == 1 && first[|blocks|] + 1 == |lines|
    && lines[0] == rootOpen && lines[|lines| - 1] == rootClose
    && forall b :: 0 <= b < |blocks| ==> IsShown(blocks[b], b, dropped, lines, first[b], first[b + 1])
  }

  ghost predicate IsShown(block: ContextBlock, b: nat, dropped: set<Position>, lines: seq<string>, first: nat, end: nat)
  {
    first <= end <= |lines| && (var shown := lines[first..end];
                                exists kept :: ShowsBlock(block, b, dropped, kept, shown))
  }

  /** The text shows the document without the dropped lines. */
  ghost predicate Shows(rootOpen: string, rootClose: string, blocks: seq<ContextBlock>, dropped: set<Position>,
                        text: string)
  {
    exists lines, starts, first ::
      IsTextOf(lines, starts, text) && IsLayout(rootOpen, rootClose, blocks, dropped, lines, first)
  }

  function Shifted(places: seq<nat>, distance: nat): (r: seq<nat>)
    ensures |r| == |places| && forall k :: 0 <= k < |places| ==> r[k] == places[k] + distance
  {
    seq(|places|, k requires 0 <= k < |places| => places[k] + distance)
  }

  lemma ShiftedHas(places: seq<nat>, distance: nat, l: nat)
    ensures l in Shifted(places, distance) <==> l >= distance && l - distance in places
  {
    if l >= distance && l - distance in places {
      var k :| 0 <= k < |places| && places[k] == l - distance;
      assert Shifted(places, distance)[k] == l;
    }
  }

  /** A line in front moves all the others. */
  lemma StandsAfter(line: string, text: string, start: nat, next: nat, head: string)
    requires StandsAt(line, text, start, next)
    ensures StandsAt(line, head + text, start + |head|, next + |head|)
  {
    assert (head + text)[start + |head|..next + |head| - 1] == text[start..next - 1];
  }

  lemma TextExtends(line: string, lines: seq<string>, starts: seq<nat>, text: string)
    requires lines != [] && IsTextOf(lines, starts, text)
    ensures IsTextOf([line] + lines, [0] + Shifted(starts, |line| + 1), line + "\n" + text)
  {
    var head := line + "\n";
    var next := [0] + Shifted(starts, |head|);
    forall k | 0 < k <= |lines| ensures StandsAt(lines[k - 1], head + text, next[k], next[k + 1]) {
      StandsAfter(lines[k - 1], text, starts[k - 1], starts[k], head);
    }
  }

  lemma {:induction false} JoinIsText(lines: seq<string>) returns (starts: seq<nat>)
    requires lines != []
    ensures IsTextOf(lines, starts, Join(lines))
  {
    if |lines| == 1 {
      starts := [0, |lines[0]| + 1];
    } else {
      var rest := JoinIsText(lines[1..]);
      TextExtends(lines[0], lines[1..], rest, Join(lines[1..]));
      assert lines == [lines[0]] + lines[1..];
      starts := [0] + Shifted(rest, |lines[0]| + 1);
    }
  }

  lemma {:induction false} DroppedIsMissing(lines: seq<ContextLine>)
    ensures |IncludedContents(lines)| <= |lines|
    ensures |IncludedContents(lines)| < |lines| <==> HasDropped(lines)
  {
    if lines != [] {
      DroppedIsMissing(lines[1..]);
      if HasDropped(lines[1..]) {
        var l :| 0 <= l < |lines[1..]| && !lines[1..][l].included;
        assert !lines[l + 1].included;
      } else if HasDropped(lines) {
        var l :| 0 <= l < |lines| && !lines[l].included;
        assert l > 0 ==> !lines[1..][l - 1].included;
      }
    }
  }

  /** The places of the included lines, in order. */
  ghost function Places(lines: seq<ContextLine>): (r: seq<nat>)
    ensures forall k :: 0 <= k < |r| ==> r[k] < |lines| && lines[r[k]].included
    ensures forall j, k :: 0 <= j < k < |r| ==> r[j] < r[k]
  {
    if lines == [] then []
    else
      var rest := Shifted(Places(lines[1..]), 1);
      if lines[0].included then [0] + rest else rest
  }

  lemma {:induction false} PlacesAreAll(lines: seq<ContextLine>, l: nat)
    requires l < |lines| && lines[l].included
    ensures l in Places(lines)
  {
    if l > 0 {
      PlacesAreAll(lines[1..], l - 1);
      ShiftedHas(Places(lines[1..]), 1, l);
    }
  }

  lemma {:induction false} ContentsOfPlaces(lines: seq<ContextLine>)
    ensures |IncludedContents(lines)| == |Places(lines)|
    ensures forall k :: 0 <= k < |Places(lines)| ==> IncludedContents(lines)[k] == lines[Places(lines)[k]].content
  {
    if lines != [] {
      var rest := lines[1..];
      ContentsOfPlaces(rest);
      var n := if lines[0].included then 1 else 0;
      forall k | 0 <= k < |Places(lines)| ensures IncludedContents(lines)[k] == lines[Places(lines)[k]].content {
        if k >= n {
          assert Places(lines)[k] == Places(rest)[k - n] + 1;
          assert IncludedContents(lines)[k] == IncludedContents(rest)[k - n];
        }
      }
    }
  }

  predicate IsPart(lines: seq<string>, first: nat, end: nat, part: seq<string>) {
    first <= end <= |lines| && lines[first..end] == part
  }

  lemma PartAfter(lines: seq<string>, first: nat, end: nat, part: seq<string>, head: seq<string>)
    requires IsPart(lines, first, end, part)
    ensures IsPart(head + lines, first + |head|, end + |head|, part)
  {
    assert (head + lines)[first + |head|..end + |head|] == lines[first..end];
  }

  lemma {:induction false} BlocksInOrder(blocks: seq<ContextBlock>) returns (first: seq<nat>)
    ensures |first| == |blocks| + 1 && first[0] == 0 && first[|blocks|] == |AllBlockLines(blocks)|
    ensures forall b :: 0 <= b < |blocks| ==>
              IsPart(AllBlockLines(blocks), first[b], first[b + 1], BlockLines(blocks[b]))
  {
    if blocks == [] {
      first := [0];
    } else {
      var rest := BlocksInOrder(blocks[1..]);
      var head := BlockLines(blocks[0]);
      first := [0] + Shifted(rest, |head|);
      forall b | 0 < b < |blocks|
        ensures IsPart(AllBlockLines(blocks), first[b], first[b + 1], BlockLines(blocks[b]))
      {
        PartAfter(AllBlockLines(blocks[1..]), rest[b - 1], rest[b], BlockLines(blocks[1..][b - 1]), head);
      }
    }
  }

  lemma PartInside(before: string, middle: seq<string>, after: string, first: nat, end: nat)
    requires first <= end <= |middle|
    ensures ([before] + middle + [after])[first + 1..end + 1] == middle[first..end]
  {
  }

  lemma BlockIsShown(blocks: seq<ContextBlock>, b: nat, dropped: set<Position>) returns (kept: seq<nat>)
    requires b < |blocks|
    ensures ShowsBlock(blocks[b], b, dropped, kept, BlockLines(Without(blocks, dropped)[b]))
  {
    var lines := Without(blocks, dropped)[b].lines;
    kept := Places(lines);
    ContentsOfPlaces(lines);
    DroppedIsMissing(lines);
    forall l: nat | l < |lines| && lines[l].included ensures l in kept {
      PlacesAreAll(lines, l);
    }
  }

  /** What is rendered without the dropped lines shows exactly the document without them. */
  lemma RenderShows(rootOpen: string, rootClose: string, blocks: seq<ContextBlock>, dropped: set<Position>)
    ensures Shows(rootOpen, rootClose, blocks, dropped, Render(rootOpen, rootClose, Without(blocks, dropped)))
  {
    var rest := Without(blocks, dropped);
    var lines := OutputLines(rootOpen, rootClose, rest);
    var starts := JoinIsText(lines);
    var inner := BlocksInOrder(rest);
    var first := Shifted(inner, 1);
    forall b | 0 <= b < |blocks| ensures IsShown(blocks[b], b, dropped, lines, first[b], first[b + 1]) {
      var kept := BlockIsShown(blocks, b, dropped);
      assert IsPart(AllBlockLines(rest), inner[b], inner[b + 1], BlockLines(rest[b]));
      PartInside(rootOpen, AllBlockLines(rest), rootClose, inner[b], inner[b + 1]);
    }
    assert IsLayout(rootOpen, rootClose, blocks, dropped, lines, first);
  }

  /** The budget loop drops exactly the minimal initial segment. */
  method RenderWithBudget(rootOpen: string, rootClose: string, input: seq<ContextBlock>, budget: nat)
    returns (content: string, ghost dropped: set<Position>)
    ensures MinimalDrop(rootOpen, rootClose, input, budget, dropped)
    ensures content == Render(rootOpen, rootClose, Without(input, dropped))
    ensures forall minimal :: MinimalDrop(rootOpen, rootClose, input, budget, minimal) ==>
                                content == Render(rootOpen, rootClose, Without(input, minimal))
    ensures Shows(rootOpen, rootClose, input, dropped, content)
  {
    var blocks := input;
    dropped := {};
    WithoutNothing(input);
    ghost var droppable := set b, l | 0 <= b < |input| && 0 <= l < |input[b].lines| :: Position(b, l);
    while true
      invariant blocks == Without(input, dropped)
      invariant InitialSegment(input, dropped)
      invariant dropped <= droppable
      invariant forall shorter :: InitialSegment(input, shorter) && shorter < dropped ==>
                                    |Render(rootOpen, rootClose, Without(input, shorter))| > budget
      decreases droppable - dropped
    {
      content := Render(rootOpen, rootClose, blocks);
      if |content| <= budget {
        OnlyMinimalDrop(rootOpen, rootClose, input, budget, dropped);
        RenderShows(rootOpen, rootClose, input, dropped);
        return;
      }
      var candidate := PickCandidate(blocks);
      if candidate.None? {
        NothingIsLeft(input, dropped);
        OnlyMinimalDrop(rootOpen, rootClose, input, budget, dropped);
        RenderShows(rootOpen, rootClose, input, dropped);
        return;
      }
      var p := candidate.value;
      SegmentExtends(input, dropped, p);
      WithoutOneMore(input, dropped, p);
      forall shorter | InitialSegment(input, shorter) && shorter < dropped + {p}
        ensures |Render(rootOpen, rootClose, Without(input, shorter))| > budget
      {
        assert shorter == dropped || shorter < dropped;
      }
      assert p in droppable;
      blocks := blocks[p.block := blocks[p.block].(lines :=
        blocks[p.block].lines[p.line := blocks[p.block].lines[p.line].(included := false)])];
      dropped := dropped + {p};
    }
  }

  // ------------------------------------------------------------------
  // Required lines survive
  // ------------------------------------------------------------------

  lemma {:induction false} IncludedIsListed(lines: seq<ContextLine>, l: nat)
    requires l < |lines| && lines[l].included
    ensures lines[l].content in IncludedContents(lines)
  {
    if l > 0 {
      IncludedIsListed(lines[1..], l - 1);
    }
  }

  lemma {:induction false} BlockLinesAreListed(blocks: seq<ContextBlock>, b: nat, text: string)
    requires b < |blocks| && text in BlockLines(blocks[b])
    ensures text in AllBlockLines(blocks)
  {
    if b > 0 {
      BlockLinesAreListed(blocks[1..], b - 1, text);
    }
  }

  /** Every required line is still one of the output lines, whatever the budget. */
  lemma RequiredLinesSurvive(rootOpen: string, rootClose: string, blocks: seq<ContextBlock>, budget: nat,
                             dropped: set<Position>, p: Position)
    requires MinimalDrop(rootOpen, rootClose, blocks, budget, dropped)
    requires InDocument(blocks, p) && LineAt(blocks, p).required && LineAt(blocks, p).included
    ensures LineAt(blocks, p).content in OutputLines(rootOpen, rootClose, Without(blocks, dropped))
  {
    var kept := Without(blocks, dropped);
    assert kept[p.block].lines[p.line] == LineAt(blocks, p);
    IncludedIsListed(kept[p.block].lines, p.line);
    BlockLinesAreListed(kept, p.block, LineAt(blocks, p).content);
  }

  // ------------------------------------------------------------------
  // What one drop does to the length
  // ------------------------------------------------------------------

  /** Each output line costs its length and one line break, except the last break. */
  function Cost(lines: seq<string>): nat {
    if lines == [] then 0 else |lines[0]| + 1 + Cost(lines[1..])
  }

  lemma {:induction false} JoinLength(lines: seq<string>)
    requires lines != []
    ensures |Join(lines)| + 1 == Cost(lines)
  {
    if |lines| > 1 {
      JoinLength(lines[1..]);
    } else {
      assert Cost(lines[1..]) == 0;
    }
  }

  lemma {:induction false} CostOfConcat(a: seq<string>, b: seq<string>)
    ensures Cost(a + b) == Cost(a) + Cost(b)
  {
    if a == [] {
      assert a + b == b;
    } else {
      CostOfConcat(a[1..], b);
      assert (a + b)[1..] == a[1..] + b;
    }
  }

  lemma {:induction false} CostOfIncluded(lines: seq<ContextLine>, l: nat)
    requires l < |lines| && lines[l].included
    ensures Cost(IncludedContents(lines)) ==
            Cost(IncludedContents(lines[l := lines[l].(included := false)])) + |lines[l].content| + 1
  {
    var after := lines[l := lines[l].(included := false)];
    if l == 0 {
      assert after[1..] == lines[1..];
      CostOfConcat([lines[0].content], IncludedContents(lines[1..]));
      assert Cost([lines[0].content]) == |lines[0].content| + 1 by { assert Cost([lines[0].content][1..]) == 0; }
      assert IncludedContents(after) == IncludedContents(lines[1..]);
    } else {
      CostOfIncluded(lines[1..], l - 1);
      assert after[1..] == lines[1..][l - 1 := lines[l].(included := false)];
      var head := if lines[0].included then [lines[0].content] else [];
      CostOfConcat(head, IncludedContents(lines[1..]));
      CostOfConcat(head, IncludedContents(after[1..]));
    }
  }

  lemma CostOfBlock(block: ContextBlock)
    ensures Cost(BlockLines(block)) ==
            2 * |block.name| + 7 + Cost(IncludedContents(block.lines))
            + (if HasDropped(block.lines) then |Marker(block.name)| + 1 else 0)
  {
    var open := ["<" + block.name + ">"];
    var body := IncludedContents(block.lines);
    var mark := if HasDropped(block.lines) then [Marker(block.name)] else [];
    var close := ["</" + block.name + ">"];
    CostOfConcat(open + body + mark, close);
    CostOfConcat(open + body, mark);
    CostOfConcat(open, body);
    assert Cost(open) == |block.name| + 3 by { assert open[1..] == []; }
    assert Cost(close) == |block.name| + 4 by { assert close[1..] == []; }
    if mark != [] {
      assert mark[1..] == [];
    }
  }

  lemma {:induction false} CostOfOneBlock(blocks: seq<ContextBlock>, b: nat, block: ContextBlock)
    requires b < |blocks|
    ensures Cost(AllBlockLines(blocks[b := block])) + Cost(BlockLines(blocks[b])) ==
            Cost(AllBlockLines(blocks)) + Cost(BlockLines(block))
  {
    var after := blocks[b := block];
    CostOfConcat(BlockLines(blocks[0]), AllBlockLines(blocks[1..]));
    CostOfConcat(BlockLines(after[0]), AllBlockLines(after[1..]));
    if b == 0 {
      assert after[1..] == blocks[1..];
    } else {
      CostOfOneBlock(blocks[1..], b - 1, block);
      assert after[1..] == blocks[1..][b - 1 := block];
    }
  }

  /** Dropping one line saves its text and its line break, but the first drop of a
      block adds the truncation marker; so a drop lengthens the text exactly when it is
      the first of its block and the line is shorter than that block's marker. */
  lemma DropChangesLength(rootOpen: string, rootClose: string, blocks: seq<ContextBlock>, p: Position)
    requires Droppable(blocks, p)
    ensures var block := blocks[p.block];
            var lines := block.lines[p.line := LineAt(blocks, p).(included := false)];
            var after := blocks[p.block := block.(lines := lines)];
            var before := |Render(rootOpen, rootClose, blocks)|;
            && (|Render(rootOpen, rootClose, after)| > before <==>
                !HasDropped(block.lines) && |LineAt(blocks, p).content| < |Marker(block.name)|)
            && |Render(rootOpen, rootClose, after)| + |LineAt(blocks, p).content| + 1 ==
               before + (if HasDropped(block.lines) then 0 else |Marker(block.name)| + 1)
  {
    var block := blocks[p.block];
    var line := LineAt(blocks, p);
    var dropped := block.(lines := block.lines[p.line := line.(included := false)]);
    var after := blocks[p.block := dropped];
    assert !dropped.lines[p.line].included;
    CostOfIncluded(block.lines, p.line);
    CostOfBlock(block);
    CostOfBlock(dropped);
    CostOfOneBlock(blocks, p.block, dropped);
    OutputCost(rootOpen, rootClose, blocks);
    OutputCost(rootOpen, rootClose, after);
  }

  lemma OutputCost(rootOpen: string, rootClose: string, blocks: seq<ContextBlock>)
    ensures |Render(rootOpen, rootClose, blocks)| == |rootOpen| + |rootClose| + 1 + Cost(AllBlockLines(blocks))
  {
    JoinLength(OutputLines(rootOpen, rootClose, blocks));
    CostOfConcat([rootOpen] + AllBlockLines(blocks), [rootClose]);
    CostOfConcat([rootOpen], AllBlockLines(blocks));
    assert [rootOpen][1..] == [] && [rootClose][1..] == [];
  }

  // ------------------------------------------------------------------
  // Escaping
  // ------------------------------------------------------------------

  /** `str::replace` with a single character as the pattern. */
  function Replace(text: string, target: char, replacement: string): string {
    if text == "" then ""
    else (if text[0] == target then replacement else [text[0]]) + Replace(text[1..], target, replacement)
  }

  function EscapeXml(text: string): string {
    var brackets := Replace(Replace(Replace(text, '&', "&amp;"), '<', "&lt;"), '>', "&gt;");
    Replace(Replace(brackets, '"', "&quot;"), '\'', "&apos;")
  }

  /** The predefined entities of section 4.6 of XML 1.0. */
  function Entity(c: char): string {
    match c
    case '&' => "&amp;"
    case '<' => "&lt;"
    case '>' => "&gt;"
    case '"' => "&quot;"
    case '\'' => "&apos;"
    case _ => [c]
  }

  function EscapeOnce(text: string): string {
    if text == "" then "" else Entity(text[0]) + EscapeOnce(text[1..])
  }

  lemma {:induction false} ReplaceConcat(a: string, b: string, target: char, replacement: string)
    ensures Replace(a + b, target, replacement) == Replace(a, target, replacement) + Replace(b, target, replacement)
  {
    if a == "" {
      assert a + b == b;
    } else {
      assert (a + b)[1..] == a[1..] + b;
      ReplaceConcat(a[1..], b, target, replacement);
    }
  }

  lemma {:induction false} ReplaceAbsent(text: string, target: char, replacement: string)
    requires target !in text
    ensures Replace(text, target, replacement) == text
  {
    if text != "" {
      ReplaceAbsent(text[1..], target, replacement);
    }
  }

  /** The chain distributes over concatenation, because each replacement does. */
  lemma EscapeConcat(a: string, b: string)
    ensures EscapeXml(a + b) == EscapeXml(a) + EscapeXml(b)
  {
    ReplaceConcat(a, b, '&', "&amp;");
    var a1, b1 := Replace(a, '&', "&amp;"), Replace(b, '&', "&amp;");
    ReplaceConcat(a1, b1, '<', "&lt;");
    var a2, b2 := Replace(a1, '<', "&lt;"), Replace(b1, '<', "&lt;");
    ReplaceConcat(a2, b2, '>', "&gt;");
    var a3, b3 := Replace(a2, '>', "&gt;"), Replace(b2, '>', "&gt;");
    ReplaceConcat(a3, b3, '"', "&quot;");
    var a4, b4 := Replace(a3, '"', "&quot;"), Replace(b3, '"', "&quot;");
    ReplaceConcat(a4, b4, '\'', "&apos;");
  }

  lemma ReplaceSingle(c: char, target: char, replacement: string)
    ensures Replace([c], target, replacement) == if c == target then replacement else [c]
  {
    assert [c][1..] == "";
  }

  /** An entity, once written, is not touched by a later replacement. */
  lemma EntityIsStable(entity: string, target: char, replacement: string)
    requires entity in {"&amp;", "&lt;", "&gt;", "&quot;", "&apos;"} && target in {'<', '>', '"', '\''}
    ensures Replace(entity, target, replacement) == entity
  {
    assert target !in entity;
    ReplaceAbsent(entity, target, replacement);
  }

  /** The passes after the one for `&`, on a text that is one character or one entity. */
  function LaterPasses(text: string): string {
    Replace(Replace(Replace(Replace(text, '<', "&lt;"), '>', "&gt;"), '"', "&quot;"), '\'', "&apos;")
  }

  lemma LaterPassesKeepEntity(entity: string)
    requires entity in {"&amp;", "&lt;", "&gt;", "&quot;", "&apos;"}
    ensures LaterPasses(entity) == entity
  {
    EntityIsStable(entity, '<', "&lt;");
    EntityIsStable(entity, '>', "&gt;");
    EntityIsStable(entity, '"', "&quot;");
    EntityIsStable(entity, '\'', "&apos;");
  }

  lemma LaterPassesOnCharacter(c: char)
    requires c != '&'
    ensures LaterPasses([c]) == Entity(c)
  {
    ReplaceSingle(c, '<', "&lt;");
    ReplaceSingle(c, '>', "&gt;");
    ReplaceSingle(c, '"', "&quot;");
    ReplaceSingle(c, '\'', "&apos;");
    EntityIsStable("&lt;", '>', "&gt;");
    EntityIsStable("&lt;", '"', "&quot;");
    EntityIsStable("&lt;", '\'', "&apos;");
    EntityIsStable("&gt;", '"', "&quot;");
    EntityIsStable("&gt;", '\'', "&apos;");
    EntityIsStable("&quot;", '\'', "&apos;");
  }

  lemma EscapeSingle(c: char)
    ensures EscapeXml([c]) == Entity(c)
  {
    ReplaceSingle(c, '&', "&amp;");
    if c == '&' {
      LaterPassesKeepEntity("&amp;");
    } else {
      LaterPassesOnCharacter(c);
    }
  }

  /** Five passes over the whole text do what one pass over its characters does:
      no replacement sees the output of an earlier one. */
  lemma {:induction false} EscapeIsOnePass(text: string)
    ensures EscapeXml(text) == EscapeOnce(text)
  {
    if text == "" {
    } else {
      assert text == [text[0]] + text[1..];
      EscapeConcat([text[0]], text[1..]);
      EscapeSingle(text[0]);
      EscapeIsOnePass(text[1..]);
    }
  }

  /** Reading the entities back. */
  function Unescape(text: string): string {
    if text == "" then ""
    else if "&amp;" <= text then "&" + Unescape(text[5..])
    else if "&lt;" <= text then "<" + Unescape(text[4..])
    else if "&gt;" <= text then ">" + Unescape(text[4..])
    else if "&quot;" <= text then "\"" + Unescape(text[6..])
    else if "&apos;" <= text then "'" + Unescape(text[6..])
    else [text[0]] + Unescape(text[1..])
  }

  lemma UnescapeEntity(c: char, rest: string)
    ensures Unescape(Entity(c) + rest) == [c] + Unescape(rest)
  {
    var text := Entity(c) + rest;
    assert text[|Entity(c)|..] == rest;
    match c
    case '&' => assert "&amp;" <= text;
    case '<' => assert text[1] == 'l'; assert "&lt;" <= text;
    case '>' => assert text[1] == 'g'; assert "&gt;" <= text;
    case '"' => assert text[1] == 'q'; assert "&quot;" <= text;
    case '\'' => assert text[1] == 'a' && text[2] == 'p'; assert "&apos;" <= text;
    case _ => assert text[0] == c;
  }

  /** Escaping loses nothing. */
  lemma {:induction false} UnescapeInvertsEscape(text: string)
    ensures Unescape(EscapeXml(text)) == text
  {
    EscapeIsOnePass(text);
    if text != "" {
      UnescapeEntity(text[0], EscapeOnce(text[1..]));
      UnescapeInvertsEscape(text[1..]);
      EscapeIsOnePass(text[1..]);
      assert text == [text[0]] + text[1..];
    }
  }

  predicate StartsEntity(text: string) {
    "&amp;" <= text || "&lt;" <= text || "&gt;" <= text || "&quot;" <= text || "&apos;" <= text
  }

  lemma EntityHasNoMarkup(c: char, tail: string, i: nat)
    requires i < |Entity(c)|
    ensures (Entity(c) + tail)[i] !in {'<', '>', '"', '\''}
    ensures (Entity(c) + tail)[i] == '&' ==> StartsEntity((Entity(c) + tail)[i..])
  {
    var head := Entity(c);
    assert (head + tail)[i] == head[i];
    if head[i] == '&' {
      assert i == 0 && head in {"&amp;", "&lt;", "&gt;", "&quot;", "&apos;"};
      assert (head + tail)[0..] == head + tail && head <= head + tail;
    }
  }

  /** Escaped text holds no markup character, and each ampersand opens an entity. */
  lemma {:induction false} EscapedTextHasNoMarkup(text: string, i: nat)
    requires i < |EscapeXml(text)|
    ensures EscapeXml(text)[i] !in {'<', '>', '"', '\''}
    ensures EscapeXml(text)[i] == '&' ==> StartsEntity(EscapeXml(text)[i..])
  {
    EscapeIsOnePass(text);
    if text != "" {
      EscapeIsOnePass(text[1..]);
      var head, tail := Entity(text[0]), EscapeOnce(text[1..]);
      if i < |head| {
        EntityHasNoMarkup(text[0], tail, i);
      } else {
        EscapedTextHasNoMarkup(text[1..], i - |head|);
        assert (head + tail)[i..] == tail[i - |head|..];
      }
    }
  }
}
