/**
 * The skills showcase: which skill is highlighted while the pinned, scrubbed
 * timeline plays. Each skill's reveal tween has two callbacks: starting it
 * forwards highlights that skill, and completing it in reverse highlights the
 * previous skill (or none before the first); unmounting clears the highlight.
 */
module Skills {
  import opened Wrappers

  datatype Skill = Skill(name: string, color: string)

  /** The skills in timeline order (icons omitted). */
  const SkillList: seq<Skill> := [
    Skill("MongoDB", "#4DB33D"),
    Skill("React.js", "#61DAFB"),
    Skill("Express.js", "#000000"),
    Skill("Node.js", "#339933"),
    Skill("NEXT.js", "#000000"),
    Skill("TypeScript", "#3178C6"),
    Skill("JavaScript", "#F7DF1E"),
    Skill("Python", "#3776AB"),
    Skill("C++", "#00599C"),
    Skill("HTML5", "#E34F26"),
    Skill("CSS3", "#1572B6"),
    Skill("Figma", "#F24E1E"),
    Skill("Git", "#F05032"),
    Skill("GitHub", "#181717")
  ]

  predicate DistinctNames(skills: seq<Skill>)
  {
    forall j, k :: 0 <= j < k < |skills| ==> skills[j].name != skills[k].name
  }

  /** What the `onStart` callback of item `i` sets. */
  function StartTarget(skills: seq<Skill>, i: nat): (active: Option<Skill>)
    requires i < |skills|
    ensures active == Some(skills[i])
  {
    Some(skills[i])
  }

  /** What the `onReverseComplete` callback of item `i` sets. */
  function ReverseTarget(skills: seq<Skill>, i: nat): (active: Option<Skill>)
    requires i < |skills|
    ensures i == 0 <==> active == None
    ensures 0 < i ==> active == StartTarget(skills, i - 1)
  {
    if i > 0 then Some(skills[i - 1]) else None
  }

  /** One registered reveal tween: its item index and what its two callbacks set. */
  datatype SkillTween = SkillTween(item: nat, onStartSets: Option<Skill>, onReverseCompleteSets: Option<Skill>)

  /**
   * The registration loop: one reveal tween per rendered skill element (there
   * is one element per skill). Reversing any tween restores what the tween
   * before it set on start, and reversing the first clears the highlight.
   */
  method RegisterSkillTweens(skills: seq<Skill>) returns (tweens: seq<SkillTween>)
    ensures |tweens| == |skills|
    ensures forall i :: 0 <= i < |tweens| ==> tweens[i].item == i && tweens[i].onStartSets == Some(skills[i])
    ensures |tweens| > 0 ==> tweens[0].onReverseCompleteSets == None
    ensures forall i :: 0 < i < |tweens| ==> tweens[i].onReverseCompleteSets == tweens[i - 1].onStartSets
  {
    tweens := [];
    for index := 0 to |skills|
      invariant |tweens| == index
      invariant forall i :: 0 <= i < index ==>
        tweens[i] == SkillTween(i, StartTarget(skills, i), ReverseTarget(skills, i))
    {
      var onReverse := if index > 0 then Some(skills[index - 1]) else None;
      tweens := tweens + [SkillTween(index, Some(skills[index]), onReverse)];
    }
  }

  /** The events that write `activeSkill`. */
  datatype SkillEvent = Start(item: nat) | ReverseComplete(item: nat) | Cleanup

  predicate ValidEvent(skills: seq<Skill>, e: SkillEvent)
  {
    match e
    case Start(i) => i < |skills|
    case ReverseComplete(i) => i < |skills|
    case Cleanup => true
  }

  /** The highlighted skill after one event. */
  function Step(skills: seq<Skill>, active: Option<Skill>, e: SkillEvent): (r: Option<Skill>)
    requires ValidEvent(skills, e)
    ensures e.Cleanup? ==> r == None
    ensures e.Start? ==> r == Some(skills[e.item])
    ensures e.ReverseComplete? ==> r == ReverseTarget(skills, e.item)
  {
    match e
    case Start(i) => StartTarget(skills, i)
    case ReverseComplete(i) => ReverseTarget(skills, i)
    case Cleanup => None
  }

  /** The highlighted skill after a sequence of events. */
  function Replay(skills: seq<Skill>, active: Option<Skill>, events: seq<SkillEvent>): Option<Skill>
    requires forall k :: 0 <= k < |events| ==> ValidEvent(skills, events[k])
    decreases |events|
  {
    if |events| == 0 then active
    else Replay(skills, Step(skills, active, events[0]), events[1..])
  }

  /** The highlight when the playhead has passed the starts of the first `p` tweens. */
  function HighlightAt(skills: seq<Skill>, p: nat): (active: Option<Skill>)
    requires p <= |skills|
    ensures p == 0 <==> active == None
    ensures 0 < p ==> active == Some(skills[p - 1])
  {
    if p == 0 then None else Some(skills[p - 1])
  }

  /**
   * Whether `events` is what the timeline fires when scrubbed from position `p`:
   * moving forwards starts item `p`, moving backwards reverses item `p - 1`.
   */
  predicate InTimelineOrder(n: nat, p: nat, events: seq<SkillEvent>)
    decreases |events|
  {
    p <= n &&
    (|events| == 0 ||
      match events[0]
      case Start(i) => i == p && p < n && InTimelineOrder(n, p + 1, events[1..])
      case ReverseComplete(i) => i + 1 == p && InTimelineOrder(n, p - 1, events[1..])
      case Cleanup => false)
  }

  /** The playhead position after a scrub. */
  function EndPosition(p: nat, events: seq<SkillEvent>): int
    decreases |events|
  {
    if |events| == 0 then p
    else match events[0]
      case Start(_) => EndPosition(p + 1, events[1..])
      case ReverseComplete(_) => if p == 0 then -1 else EndPosition(p - 1, events[1..])
      case Cleanup => EndPosition(p, events[1..])
  }

  /** Timeline-ordered events are valid callback events. */
  lemma {:induction false} InOrderEventsValid(skills: seq<Skill>, p: nat, events: seq<SkillEvent>)
    requires InTimelineOrder(|skills|, p, events)
    ensures forall k :: 0 <= k < |events| ==> ValidEvent(skills, events[k])
    decreases |events|
  {
    if |events| > 0 {
      var q := if events[0].Start? then p + 1 else p - 1;
      InOrderEventsValid(skills, q, events[1..]);
      forall k | 0 < k < |events| ensures ValidEvent(skills, events[k]) {
        assert events[k] == events[1..][k - 1];
      }
    }
  }

  /**
   * However the timeline is scrubbed forwards and backwards, the highlight
   * is always the last skill whose start the playhead has passed.
   */
  lemma {:induction false} ScrubTracksPosition(skills: seq<Skill>, p: nat, events: seq<SkillEvent>)
    requires InTimelineOrder(|skills|, p, events)
    ensures forall k :: 0 <= k < |events| ==> ValidEvent(skills, events[k])
    ensures 0 <= EndPosition(p, events) <= |skills|
    ensures Replay(skills, HighlightAt(skills, p), events) == HighlightAt(skills, EndPosition(p, events))
    decreases |events|
  {
    InOrderEventsValid(skills, p, events);
    if |events| > 0 {
      var q := if events[0].Start? then p + 1 else p - 1;
      assert Step(skills, HighlightAt(skills, p), events[0]) == HighlightAt(skills, q);
      ScrubTracksPosition(skills, q, events[1..]);
    }
  }

  /** Starting item `i` and then reversing it restores the highlight that held before. */
  lemma StartThenReverseRestores(skills: seq<Skill>, i: nat)
    requires i < |skills|
    ensures Replay(skills, HighlightAt(skills, i), [Start(i), ReverseComplete(i)]) == HighlightAt(skills, i)
  {
    var events := [Start(i), ReverseComplete(i)];
    assert InTimelineOrder(|skills|, i + 1, events[1..][1..]);
    assert InTimelineOrder(|skills|, i, events);
    ScrubTracksPosition(skills, i, events);
    assert EndPosition(i + 1, events[1..]) == EndPosition(i, events[1..][1..]);
  }

  /** "Scroll to explore" shows while no skill is highlighted. */
  function HintVisible(active: Option<Skill>): (visible: bool)
    ensures visible ==> active == None
    ensures !visible ==> active.Some?
  {
    active.None?
  }

  /** The item at position `k` is marked active when its name equals the highlighted skill's. */
  function IsMarked(active: Option<Skill>, skill: Skill): (marked: bool)
    ensures active == Some(skill) ==> marked
    ensures marked ==> !HintVisible(active)
    ensures marked <==> active.Some? && active.value.name == skill.name
  {
    active.Some? && active.value.name == skill.name
  }

  /** Positions of the marked items. */
  function MarkedItems(skills: seq<Skill>, active: Option<Skill>): (marked: set<nat>)
    ensures forall k: nat :: k in marked <==> k < |skills| && IsMarked(active, skills[k])
  {
    set k: nat | k < |skills| && IsMarked(active, skills[k])
  }

  /**
   * With distinct names, highlighting item `k` marks that item alone, no
   * highlight marks nothing, and the hint shows exactly when nothing is marked.
   */
  lemma MarkingFollowsHighlight(skills: seq<Skill>, active: Option<Skill>)
    requires DistinctNames(skills)
    requires active == None || active.value in skills
    ensures active == None ==> MarkedItems(skills, active) == {}
    ensures forall k :: 0 <= k < |skills| && active == Some(skills[k]) ==> MarkedItems(skills, active) == {k}
    ensures |MarkedItems(skills, active)| <= 1
    ensures HintVisible(active) <==> MarkedItems(skills, active) == {}
  {
    if active.Some? {
      var k :| 0 <= k < |skills| && skills[k] == active.value;
      assert MarkedItems(skills, active) == {k};
    }
  }

  /** The showcase's skill names are distinct. */
  lemma SkillNamesDistinct()
    ensures DistinctNames(SkillList)
  {
  }

  /** The component's `activeSkill` state. */
  class SkillsSection {
    var activeSkill: Option<Skill>

    constructor ()
      ensures activeSkill == None
    {
      activeSkill := None;
    }

    method OnStart(index: nat)
      requires index < |SkillList|
      modifies this
      ensures activeSkill == Step(SkillList, old(activeSkill), Start(index))
    {
      activeSkill := Some(SkillList[index]);
    }

    method OnReverseComplete(index: nat)
      requires index < |SkillList|
      modifies this
      ensures activeSkill == Step(SkillList, old(activeSkill), ReverseComplete(index))
    {
      if index > 0 {
        activeSkill := Some(SkillList[index - 1]);
      } else {
        activeSkill := None;
      }
    }

    method CleanupEffect()
      modifies this
      ensures activeSkill == Step(SkillList, old(activeSkill), Cleanup)
    {
      activeSkill := None;
    }
  }
}
