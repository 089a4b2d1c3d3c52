/**
 * The action card of the sequence editor: its colour style, the height of its JSON editor,
 * the expand/collapse state and the decision a released drag makes (expand, or move the card).
 * Widgets and geometry queries are parameters; callbacks into the editor are recorded.
 */
module Components {
  import opened Wrappers
  import opened Strings
  import opened Lists
  import opened Json

  const AudioStyle: string := "AudioCard.TFrame"
  const VideoStyle: string := "VideoCard.TFrame"
  const WaitStyle: string := "WaitCard.TFrame"
  const PlainStyle: string := "Card.TFrame"

  /** The card style for an action's `type` (an absent type is the empty string), tested on its lower-cased form. */
  function CardStyle(actionType: string): (r: string)
    ensures var t := Lower(actionType);
            && (r == AudioStyle <==> Contains(t, "audio") || Contains(t, "sound"))
            && (r == VideoStyle <==> !Contains(t, "audio") && !Contains(t, "sound") && Contains(t, "video"))
            && (r == WaitStyle <==> !Contains(t, "audio") && !Contains(t, "sound") && !Contains(t, "video") &&
                                    (t == "wait" || Contains(t, "delay")))
            && (r == PlainStyle || r == AudioStyle || r == VideoStyle || r == WaitStyle)
  {
    var t := Lower(actionType);
    PlayPrefix(t, "audio");
    PlayPrefix(t, "video");
    if Contains(t, "audio") || Contains(t, "sound") || Contains(t, "play_" + "audio") then AudioStyle
    else if Contains(t, "video") || Contains(t, "play_" + "video") then VideoStyle
    else if t == "wait" || Contains(t, "delay") then WaitStyle
    else PlainStyle
  }

  /**
   * `action_data.get('type', '').lower()` on the action's `type`, which a sequence file may give as
   * any JSON value: an absent type is the empty string, a string is styled by `CardStyle`, and any
   * other value has no `lower` and raises (None).
   */
  function StyleOfType(actionType: Option<Json>): (r: Option<string>)
    ensures r.Some? <==> actionType.None? || actionType.value.JStr?
    ensures actionType.None? ==> r == Some(PlainStyle)
    ensures actionType.Some? && actionType.value.JStr? ==> r == Some(CardStyle(actionType.value.s))
  {
    match actionType
    case None =>
      assert Lower("") == "";
      Some(CardStyle(""))
    case Some(JStr(t)) => Some(CardStyle(t))
    case Some(_) => None
  }

  /** `"play_audio" in t` already implies `"audio" in t`, and likewise for video. */
  lemma PlayPrefix(t: string, kind: string)
    ensures Contains(t, "play_" + kind) ==> Contains(t, kind)
  {
    if Contains(t, "play_" + kind) {
      ContainsTail(t, "play_", kind);
    }
  }

  /** The audio types of the registry get the audio colour. */
  lemma AudioCards()
    ensures CardStyle("play_audio") == AudioStyle && CardStyle("play_random_audio") == AudioStyle
  {
    ContainsMiddle("play_", "audio", "");
    ContainsMiddle("play_random_", "audio", "");
    assert Lower("play_audio") == "play_" + "audio" + "";
    assert Lower("play_random_audio") == "play_random_" + "audio" + "";
  }

  /** The label style that goes with a card style: `.TFrame` becomes `.TLabel`. */
  function LabelStyle(cardStyle: string): string {
    Replace(cardStyle, ".TFrame", ".TLabel")
  }

  /** Each card style `<Name>.TFrame` (a name without a dot) has the label style `<Name>.TLabel`. */
  lemma LabelStyleOf(name: string)
    requires '.' !in name
    ensures LabelStyle(name + ".TFrame") == name + ".TLabel"
  {
    ReplaceAfter(name, ".TFrame", ".TLabel");
  }

  /** Replacing in a dot-free name followed by the pattern replaces exactly that suffix. */
  lemma {:induction false} ReplaceAfter(s: string, pat: string, rep: string)
    requires |pat| > 0 && pat[0] == '.' && '.' !in s
    ensures Replace(s + pat, pat, rep) == s + rep
    decreases |s|
  {
    var t := s + pat;
    if |s| > 0 {
      assert !StartsWith(t, pat) by { assert t[0] == s[0] != '.'; }
      assert t[1..] == s[1..] + pat;
      ReplaceAfter(s[1..], pat, rep);
      assert [s[0]] + (s[1..] + rep) == s + rep;
    } else {
      assert t == pat && StartsWith(t, pat);
      assert t[|pat|..] == [];
      assert Replace([], pat, rep) == "" by { assert !StartsWith([], pat); }
    }
  }

  /** `text.count('\n')` */
  function NewLines(s: string): (n: nat)
    ensures n <= |s|
    ensures n == 0 <==> Free(s, '\n')
    decreases |s|
  {
    if |s| == 0 then 0 else (if s[0] == '\n' then 1 else 0) + NewLines(s[1..])
  }

  /** The editor height for a text of `lines` lines: at least 3, at most 30 rows. */
  function HeightFor(lines: int): (h: int)
    ensures 3 <= h <= 30
    ensures 3 <= lines <= 30 ==> h == lines
    ensures lines < 3 ==> h == 3
    ensures lines > 30 ==> h == 30
  {
    if lines < 3 then 3 else if lines > 30 then 30 else lines
  }

  /** The height for a text: one row per line, clamped. */
  function TextHeight(text: string): int {
    HeightFor(NewLines(text) + 1)
  }

  /** A one-line text still gets three rows, and a text of forty lines only thirty. */
  lemma TextHeightClamps(text: string)
    ensures Free(text, '\n') ==> TextHeight(text) == 3
    ensures NewLines(text) >= 29 ==> TextHeight(text) == 30
  {
  }

  /** A sibling widget of the card, as `_end_drag` sees it through its geometry queries. */
  datatype Sibling = Sibling(isCard: bool, index: int, top: int, height: int)

  /** `isinstance(child, ActionCard)` and the release point lies within its rows */
  predicate Hit(c: Sibling, y: int) {
    c.isCard && c.top <= y <= c.top + c.height
  }

  /** The last widget ends above `y`: the release is below every child. */
  predicate BelowLast(siblings: seq<Sibling>, y: int) {
    |siblings| > 0 && y > siblings[|siblings| - 1].top + siblings[|siblings| - 1].height
  }

  /**
   * The target `_end_drag` picks for a release at height `y`: the index of the first card under
   * it, else (or when that index is -1) the last position when the release is below the last
   * widget, else -1.
   */
  function DropTarget(siblings: seq<Sibling>, y: int): (target: int)
    ensures var hit := FirstIndex(siblings, c => Hit(c, y));
            hit.Some? && siblings[hit.value].index != -1 ==> target == siblings[hit.value].index
    ensures (forall i :: 0 <= i < |siblings| ==> !Hit(siblings[i], y)) ==>
              target == if BelowLast(siblings, y) then |siblings| - 1 else -1
    ensures target == -1 || target == |siblings| - 1 || exists i :: 0 <= i < |siblings| && Hit(siblings[i], y) && target == siblings[i].index
  {
    var found := match FirstIndex(siblings, c => Hit(c, y))
      case Some(i) => siblings[i].index
      case None => -1;
    if found == -1 && BelowLast(siblings, y) then |siblings| - 1 else found
  }

  /** The loop of `_end_drag` over the parent's children, then the below-the-last check. */
  method FindDropTarget(siblings: seq<Sibling>, y: int) returns (target: int)
    ensures target == DropTarget(siblings, y)
  {
    target := -1;
    var at := Scan(siblings, c => Hit(c, y));
    if at.Some? {
      target := siblings[at.value].index;
    }
    if target == -1 {
      if |siblings| > 0 {
        var last := siblings[|siblings| - 1];
        if y > last.top + last.height {
          target := |siblings| - 1;
        }
      }
    }
  }

  /** What a release does. */
  datatype Release = NotDragging | Click | MoveTo(from: int, to: int) | Stay

  /**
   * The decision of `_end_drag` for a release at (x, y) of the card at `index`: nothing when no
   * drag started, a click when the pointer moved less than 5 pixels both ways, otherwise a move
   * to the drop target when there is one other than the card itself and a `move_to` callback.
   */
  function ReleaseOf(started: bool, dx: int, dy: int, index: int, target: int, hasMoveTo: bool): (r: Release)
    ensures r == NotDragging <==> !started
    ensures r == Click <==> started && -5 < dx < 5 && -5 < dy < 5
    ensures r.MoveTo? ==> r.from == index && r.to == target
    ensures r.MoveTo? <==> started && !(-5 < dx < 5 && -5 < dy < 5) && target != -1 && target != index && hasMoveTo
  {
    if !started then NotDragging
    else if Abs(dx) < 5 && Abs(dy) < 5 then Click
    else if target != -1 && target != index && hasMoveTo then MoveTo(index, target)
    else Stay
  }

  function Abs(n: int): (r: nat)
    ensures r == n || r == -n
  {
    if n < 0 then -n else n
  }

  /** An `ActionCard`: the fields its event handlers read and write. */
  class ActionCard {
    const index: int
    const cardStyle: string
    /** whether the callbacks include `move_to` */
    const hasMoveTo: bool
    var isExpanded: bool
    var bodyCreated: bool
    /** the text of the Edit/Close button */
    var buttonText: string
    /** the height of the JSON editor, once the body exists */
    var textHeight: int
    var dragX: int
    var dragY: int
    /** `_drag_data["start_index"]`, None when no drag is under way */
    var startIndex: Option<int>
    /** the raised relief shown while dragging */
    var raised: bool
    /** the `move_to(from, to)` calls made so far */
    var moves: seq<(int, int)>

    /** `ActionCard.__init__`: collapsed, no body, no drag. */
    constructor (index: int, actionType: string, hasMoveTo: bool)
      ensures this.index == index && cardStyle == CardStyle(actionType) && this.hasMoveTo == hasMoveTo
      ensures !isExpanded && !bodyCreated && buttonText == "Edit" && startIndex == None && !raised && moves == []
      ensures dragX == 0 && dragY == 0
    {
      this.index := index;
      cardStyle := CardStyle(actionType);
      this.hasMoveTo := hasMoveTo;
      isExpanded, bodyCreated, buttonText := false, false, "Edit";
      textHeight := 0;
      dragX, dragY, startIndex := 0, 0, None;
      raised, moves := false, [];
    }

    /** `_create_body`: builds the editor once, sized for the JSON text of the config. */
    method CreateBody(json: string)
      modifies this
      ensures bodyCreated
      ensures textHeight == if old(bodyCreated) then old(textHeight) else TextHeight(json)
      ensures isExpanded == old(isExpanded) && buttonText == old(buttonText) && startIndex == old(startIndex)
      ensures moves == old(moves) && raised == old(raised) && dragX == old(dragX) && dragY == old(dragY)
    {
      if bodyCreated {
        return;
      }
      textHeight := TextHeight(json);
      bodyCreated := true;
    }

    /** `toggle_expand`: flips the state; expanding creates the body first. */
    method ToggleExpand(json: string)
      modifies this
      ensures isExpanded == !old(isExpanded)
      ensures buttonText == if isExpanded then "Close" else "Edit"
      ensures bodyCreated == (old(bodyCreated) || isExpanded)
      ensures textHeight == if old(bodyCreated) || !isExpanded then old(textHeight) else TextHeight(json)
      ensures startIndex == old(startIndex) && moves == old(moves) && raised == old(raised)
      ensures dragX == old(dragX) && dragY == old(dragY)
    {
      if isExpanded {
        buttonText := "Edit";
      } else {
        CreateBody(json);
        buttonText := "Close";
      }
      isExpanded := !isExpanded;
    }

    /** `_adjust_height`: the editor follows the number of lines of its content. */
    method AdjustHeight(content: string)
      modifies this
      ensures textHeight == TextHeight(content)
      ensures isExpanded == old(isExpanded) && bodyCreated == old(bodyCreated) && startIndex == old(startIndex)
      ensures moves == old(moves) && buttonText == old(buttonText) && raised == old(raised)
      ensures dragX == old(dragX) && dragY == old(dragY)
    {
      var h := TextHeight(content);
      if textHeight != h {
        textHeight := h;
      }
    }

    /** `_start_drag`: records where the press happened, unless it was on a button. */
    method StartDrag(x: int, y: int, onButton: bool)
      modifies this
      ensures onButton ==> unchanged(this)
      ensures !onButton ==> dragX == x && dragY == y && startIndex == Some(index) && raised
      ensures isExpanded == old(isExpanded) && moves == old(moves) && bodyCreated == old(bodyCreated)
      ensures buttonText == old(buttonText) && textHeight == old(textHeight)
    {
      if onButton {
        return;
      }
      dragX, dragY := x, y;
      startIndex := Some(index);
      raised := true;
    }

    /**
     * `_end_drag` for a release at (x, y) among `siblings`; `json` is the config text a first
     * expansion shows.
     */
    method EndDrag(x: int, y: int, siblings: seq<Sibling>, json: string)
      modifies this
      ensures !raised && startIndex == None
      ensures var release := ReleaseOf(old(startIndex).Some?, x - old(dragX), y - old(dragY), index,
                                       DropTarget(siblings, y), hasMoveTo);
              && (isExpanded <==> (if release == Click then !old(isExpanded) else old(isExpanded)))
              && moves == (if release.MoveTo? then old(moves) + [(release.from, release.to)] else old(moves))
              && (release == Click ==>
                    && buttonText == (if isExpanded then "Close" else "Edit")
                    && bodyCreated == (old(bodyCreated) || isExpanded)
                    && textHeight == (if old(bodyCreated) || !isExpanded then old(textHeight) else TextHeight(json)))
              && (release != Click ==>
                    buttonText == old(buttonText) && bodyCreated == old(bodyCreated) && textHeight == old(textHeight))
    ensures dragX == old(dragX) && dragY == old(dragY)
    {
      raised := false;
      if startIndex.None? {
        return;
      }
      var dx := Abs(x - dragX);
      var dy := Abs(y - dragY);
      if dx < 5 && dy < 5 {
        ToggleExpand(json);
        startIndex := None;
        return;
      }
      var target := FindDropTarget(siblings, y);
      if target != -1 && target != index {
        if hasMoveTo {
          moves := moves + [(index, target)];
        }
      }
      startIndex := None;
    }
  }

  /** Expanding and collapsing again restores the collapsed card, with its body kept. */
  method ToggleTwice(card: ActionCard, json: string)
    modifies card
    ensures card.isExpanded == old(card.isExpanded) && card.buttonText == (if card.isExpanded then "Close" else "Edit")
    ensures card.bodyCreated
  {
    card.ToggleExpand(json);
    card.ToggleExpand(json);
  }
}
