/**
 * Alarm sequences: a named, ordered list of actions, edited in place by the sequence editor and
 * stored as a JSON document `{"name": ..., "actions": [{"type": ..., "config": ...}, ...]}`.
 */
module Sequences {
  import opened Wrappers
  import opened Lists
  import opened Strings
  import opened Json

  /** One step of a sequence; the type and config are whatever the JSON file held. */
  datatype AlarmAction = AlarmAction(actionType: Json, config: Json)

  /** `AlarmAction.to_dict` */
  function ActionToDict(a: AlarmAction): Json {
    JObj(map["type" := a.actionType, "config" := a.config])
  }

  /** `AlarmAction.from_dict`: `data["type"]` and `data["config"]`, which raise unless both keys exist. */
  function ActionFromDict(data: Json): (r: Result<AlarmAction>)
    ensures r.Ok? <==> data.JObj? && "type" in data.fields && "config" in data.fields
    ensures r.Ok? ==> r.value == AlarmAction(data.fields["type"], data.fields["config"])
  {
    match data
    case JObj(fields) =>
      if "type" !in fields then Err("KeyError: 'type'")
      else if "config" !in fields then Err("KeyError: 'config'")
      else Ok(AlarmAction(fields["type"], fields["config"]))
    case _ => Err("TypeError: action entry is not a dictionary")
  }

  /** Reading back an action's dictionary gives the action. */
  lemma ActionRoundTrip(a: AlarmAction)
    ensures ActionFromDict(ActionToDict(a)) == Ok(a)
  {
  }

  /** `[action.to_dict() for action in actions]` */
  function ActionDicts(actions: seq<AlarmAction>): (r: seq<Json>)
    ensures |r| == |actions|
    ensures forall i :: 0 <= i < |r| ==> r[i] == ActionToDict(actions[i])
  {
    if actions == [] then []
    else ActionDicts(actions[..|actions| - 1]) + [ActionToDict(actions[|actions| - 1])]
  }

  /** The actions `from_dict` appends for a list of entries, or the first entry's error. */
  function ActionsFrom(items: seq<Json>): Result<seq<AlarmAction>> {
    if items == [] then Ok([])
    else
      match ActionsFrom(items[..|items| - 1])
      case Err(e) => Err(e)
      case Ok(prefix) =>
        match ActionFromDict(items[|items| - 1])
        case Err(e) => Err(e)
        case Ok(a) => Ok(prefix + [a])
  }

  /**
   * What `for action_data in data.get("actions", [])` iterates over: a list's items, a dictionary's
   * keys or a string's characters; None when the value is not iterable at all.
   */
  function ActionEntries(data: map<string, Json>): Option<seq<Json>> {
    match Get(data, "actions", JArr([]))
    case JArr(items) => Some(items)
    case JObj(fields) => if |fields| == 0 then Some([]) else Some([JStr("key")])
    case JStr(s) => if s == "" then Some([]) else Some([JStr([s[0]])])
    case _ => None
  }

  /** `AlarmSequence.to_dict` */
  function SequenceToDict(name: Json, actions: seq<AlarmAction>): Json {
    JObj(map["name" := name, "actions" := JArr(ActionDicts(actions))])
  }

  /** The name and actions `AlarmSequence.from_dict` builds, or the error it raises. */
  function SequenceFromDict(data: Json): (r: Result<(Json, seq<AlarmAction>)>)
    ensures r.Ok? && data.JObj? ==> r.value.0 == Get(data.fields, "name", JStr("Untitled"))
    ensures data.JObj? && "actions" !in data.fields ==> r.Ok? && r.value.1 == []
  {
    match data
    case JObj(fields) =>
      var name := Get(fields, "name", JStr("Untitled"));
      (match ActionEntries(fields)
       case None => Err("TypeError: actions are not iterable")
       case Some(items) =>
         match ActionsFrom(items)
         case Err(e) => Err(e)
         case Ok(actions) => Ok((name, actions)))
    case _ => Err("AttributeError: the document is not a dictionary")
  }

  /** Decoding the dictionaries of a list of actions gives that list back. */
  lemma {:induction false} ActionsRoundTrip(actions: seq<AlarmAction>)
    ensures ActionsFrom(ActionDicts(actions)) == Ok(actions)
  {
    if actions != [] {
      var init := actions[..|actions| - 1];
      var last := actions[|actions| - 1];
      var ds := ActionDicts(actions);
      assert ds[..|ds| - 1] == ActionDicts(init);
      ActionsRoundTrip(init);
      ActionRoundTrip(last);
      assert init + [last] == actions;
    }
  }

  /** `from_dict(to_dict(s))` keeps the name and the ordered (type, config) list. */
  lemma SequenceRoundTrip(name: Json, actions: seq<AlarmAction>)
    ensures SequenceFromDict(SequenceToDict(name, actions)) == Ok((name, actions))
  {
    ActionsRoundTrip(actions);
  }

  /** A document without `name` and `actions` loads as an empty sequence called "Untitled". */
  lemma FromEmptyDict()
    ensures SequenceFromDict(JObj(map[])) == Ok((JStr("Untitled"), []))
  {
  }

  /** The position `list.insert(index, x)` puts `x` at, in a list of length `n`. */
  function InsertPosition(index: int, n: nat): (k: nat)
    ensures k <= n
    ensures 0 <= index <= n ==> k == index
    ensures index > n ==> k == n
    ensures -(n as int) <= index < 0 ==> k == n + index
    ensures index < -(n as int) ==> k == 0
  {
    if index < 0 then (if index + n < 0 then 0 else index + n)
    else if index > n then n
    else index
  }

  /** `action = actions.pop(from_index); actions.insert(to_index, action)` */
  function Moved(s: seq<AlarmAction>, from: nat, to: nat): seq<AlarmAction>
    requires from < |s| && to < |s|
  {
    InsertAt(RemoveAt(s, from), to, s[from])
  }

  /** Moving an action keeps every action and puts the moved one at `to`. */
  lemma MovedIsPermutation(s: seq<AlarmAction>, from: nat, to: nat)
    requires from < |s| && to < |s|
    ensures |Moved(s, from, to)| == |s| && Moved(s, from, to)[to] == s[from]
    ensures multiset(Moved(s, from, to)) == multiset(s)
  {
    var rest := RemoveAt(s, from);
    assert s == s[..from] + [s[from]] + s[from + 1..];
    assert multiset(rest) + multiset{s[from]} == multiset(s);
    assert rest == rest[..to] + rest[to..];
    calc {
      multiset(Moved(s, from, to));
      multiset(rest[..to]) + multiset{s[from]} + multiset(rest[to..]);
      multiset(rest) + multiset{s[from]};
    }
  }

  /** The error `validate` raises for the action at position `i`, if any. */
  function ActionProblem(a: AlarmAction, i: nat): Option<string> {
    if !Truthy(a.actionType) then Some("Action " + NatToString(i) + " has no type")
    else if !a.config.JObj? then Some("Action " + NatToString(i) + " config must be a dictionary")
    else None
  }

  /** The first problem among the actions from position `k` on. */
  function FirstProblem(actions: seq<AlarmAction>, k: nat): Option<string>
    decreases |actions| - k
  {
    if k >= |actions| then None
    else if ActionProblem(actions[k], k).Some? then ActionProblem(actions[k], k)
    else FirstProblem(actions, k + 1)
  }

  /** The ValueError message `validate` raises, or None when it returns normally. */
  function ValidationError(name: Json, actions: seq<AlarmAction>): Option<string> {
    if !Truthy(name) then Some("Sequence name cannot be empty")
    else if |actions| == 0 then Some("Sequence must have at least one action")
    else FirstProblem(actions, 0)
  }

  /** An action from position `k` on is faulty exactly when a problem is reported. */
  lemma {:induction false} FirstProblemMeaning(actions: seq<AlarmAction>, k: nat)
    ensures FirstProblem(actions, k).None? <==>
            forall j :: k <= j < |actions| ==> Truthy(actions[j].actionType) && actions[j].config.JObj?
    decreases |actions| - k
  {
    if k < |actions| {
      FirstProblemMeaning(actions, k + 1);
    }
  }

  /** `validate` passes exactly for a non-empty name and a non-empty list of typed, dictionary-configured actions. */
  lemma ValidMeaning(name: Json, actions: seq<AlarmAction>)
    ensures ValidationError(name, actions).None? <==>
            && Truthy(name) && |actions| > 0
            && forall j :: 0 <= j < |actions| ==> Truthy(actions[j].actionType) && actions[j].config.JObj?
  {
    FirstProblemMeaning(actions, 0);
  }

  /** The characters `save` keeps in a file name. */
  predicate FileNameChar(c: char) {
    IsAlnum(c) || c in "._- "
  }

  /** `"".join(x for x in filename if x.isalnum() or x in "._- ")` */
  function SanitizedFileName(filename: string): string {
    Keep(filename, FileNameChar)
  }

  /** The name `save` writes to: the given file name, or the sequence name plus `.json`, sanitised. */
  function SaveFileName(name: string, filename: string): (r: string)
    ensures forall i :: 0 <= i < |r| ==> FileNameChar(r[i])
  {
    SanitizedFileName(if filename == "" then name + ".json" else filename)
  }

  /** A file name made only of allowed characters is kept as it is. */
  lemma {:induction false} SanitizeKeepsSafeNames(filename: string)
    requires forall i :: 0 <= i < |filename| ==> FileNameChar(filename[i])
    ensures SanitizedFileName(filename) == filename
  {
    if filename != "" {
      SanitizeKeepsSafeNames(filename[1..]);
    }
  }

  class AlarmSequence {
    var name: Json
    var actions: seq<AlarmAction>

    constructor (name: Json)
      ensures this.name == name && actions == []
    {
      this.name := name;
      actions := [];
    }

    /** `add_action` */
    method AddAction(actionType: Json, config: Json)
      modifies this
      ensures name == old(name)
      ensures actions == old(actions) + [AlarmAction(actionType, config)]
    {
      actions := actions + [AlarmAction(actionType, config)];
    }

    /** `insert_action`, with Python's clamping of the index into the list. */
    method InsertAction(index: int, actionType: Json, config: Json)
      modifies this
      ensures name == old(name)
      ensures actions == InsertAt(old(actions), InsertPosition(index, |old(actions)|), AlarmAction(actionType, config))
    {
      actions := InsertAt(actions, InsertPosition(index, |actions|), AlarmAction(actionType, config));
    }

    /** `remove_action`: an index out of range changes nothing. */
    method RemoveAction(index: int)
      modifies this
      ensures name == old(name)
      ensures 0 <= index < |old(actions)| ==> actions == RemoveAt(old(actions), index)
      ensures !(0 <= index < |old(actions)|) ==> actions == old(actions)
    {
      if 0 <= index < |actions| {
        actions := RemoveAt(actions, index);
      }
    }

    /** `move_action`: both indices must be in range, otherwise nothing changes. */
    method MoveAction(fromIndex: int, toIndex: int)
      modifies this
      ensures name == old(name)
      ensures 0 <= fromIndex < |old(actions)| && 0 <= toIndex < |old(actions)| ==>
                actions == Moved(old(actions), fromIndex, toIndex)
      ensures !(0 <= fromIndex < |old(actions)| && 0 <= toIndex < |old(actions)|) ==> actions == old(actions)
    {
      if 0 <= fromIndex < |actions| && 0 <= toIndex < |actions| {
        var action := actions[fromIndex];
        actions := RemoveAt(actions, fromIndex);
        actions := InsertAt(actions, toIndex, action);
      }
    }

    /** `validate`: the message of the ValueError it raises, or None. */
    method Validate() returns (error: Option<string>)
      ensures error == ValidationError(name, actions)
    {
      if !Truthy(name) {
        return Some("Sequence name cannot be empty");
      }
      if |actions| == 0 {
        return Some("Sequence must have at least one action");
      }
      var i := 0;
      while i < |actions|
        invariant 0 <= i <= |actions|
        invariant FirstProblem(actions, 0) == FirstProblem(actions, i)
      {
        var problem := ActionProblem(actions[i], i);
        if problem.Some? {
          return problem;
        }
        i := i + 1;
      }
      error := None;
    }

    /** `to_dict` */
    function ToDict(): Json
      reads this
    {
      SequenceToDict(name, actions)
    }

    /** `from_dict`: a new sequence, filled by appending the decoded actions one by one. */
    static method FromDict(data: Json) returns (r: Result<AlarmSequence>)
      ensures SequenceFromDict(data).Err? <==> r.Err?
      ensures r.Ok? ==> fresh(r.value) && (r.value.name, r.value.actions) == SequenceFromDict(data).value
    {
      if !data.JObj? {
        return Err("AttributeError: the document is not a dictionary");
      }
      var entries := ActionEntries(data.fields);
      if entries.None? {
        return Err("TypeError: actions are not iterable");
      }
      var items := entries.value;
      var sequence := new AlarmSequence(Get(data.fields, "name", JStr("Untitled")));
      var i := 0;
      while i < |items|
        invariant 0 <= i <= |items|
        invariant ActionsFrom(items[..i]) == Ok(sequence.actions)
        invariant sequence.name == Get(data.fields, "name", JStr("Untitled"))
      {
        assert items[..i + 1][..i] == items[..i];
        var action := ActionFromDict(items[i]);
        if action.Err? {
          assert ActionsFrom(items[..i + 1]).Err?;
          ErrorPersists(items, i + 1);
          return Err(action.message);
        }
        sequence.actions := sequence.actions + [action.value];
        i := i + 1;
      }
      assert items[..i] == items;
      r := Ok(sequence);
    }
  }

  /** Once an entry fails to decode, the whole list fails. */
  lemma {:induction false} ErrorPersists(items: seq<Json>, k: nat)
    requires k <= |items| && ActionsFrom(items[..k]).Err?
    ensures ActionsFrom(items).Err?
    decreases |items| - k
  {
    if k < |items| {
      assert items[..k + 1][..k] == items[..k];
      ErrorPersists(items, k + 1);
    } else {
      assert items[..k] == items;
    }
  }
}
