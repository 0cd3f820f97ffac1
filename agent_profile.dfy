/**
 * The agent-profile editor: the record an agent profile holds and the edit
 * handlers that rebuild it. The editor's state is `Option<AgentConfig>`;
 * `None` is the null config shown while the profile is loading, and every
 * handler leaves it untouched.
 */
module AgentProfile {
  import opened Wrappers
  import Text

  /** One turn of an example conversation. A field that was never set is None. */
  datatype Message = Message(role: Option<string>, content: Option<string>)

  type Example = seq<Message>

  datatype AgentConfig = AgentConfig(
    name: string,
    model: string,
    conversing: string,
    coding: string,
    savingMemory: string,
    modes: map<string, bool>,
    conversationExamples: seq<Example>,
    codingExamples: seq<Example>)

  /** The free-text fields that `handleConfigChange` can replace. */
  datatype TextField = Name | Model | Conversing | Coding | SavingMemory

  /** Which of the two example lists an example handler addresses. */
  datatype ExampleKind = ConversationExamples | CodingExamples

  datatype MessageField = Role | Content

  /** Why `updateExample` throws instead of setting the config. */
  datatype EditError = NoSuchExample | NotAnElementIndex

  function FieldValue(c: AgentConfig, f: TextField): string
  {
    match f
    case Name => c.name
    case Model => c.model
    case Conversing => c.conversing
    case Coding => c.coding
    case SavingMemory => c.savingMemory
  }

  function Examples(c: AgentConfig, kind: ExampleKind): seq<Example>
  {
    match kind
    case ConversationExamples => c.conversationExamples
    case CodingExamples => c.codingExamples
  }

  function WithExamples(c: AgentConfig, kind: ExampleKind, xs: seq<Example>): AgentConfig
  {
    match kind
    case ConversationExamples => c.(conversationExamples := xs)
    case CodingExamples => c.(codingExamples := xs)
  }

  function Other(kind: ExampleKind): ExampleKind
  {
    if kind == ConversationExamples then CodingExamples else ConversationExamples
  }

  /** `b` is `a` with at most the `kind` example list replaced. */
  predicate SameExceptExamples(a: AgentConfig, b: AgentConfig, kind: ExampleKind)
  {
    WithExamples(a, kind, Examples(b, kind)) == b
  }

  /** handleConfigChange: replace one text field; a null config stays null. */
  function ConfigChange(config: Option<AgentConfig>, f: TextField, v: string): (r: Option<AgentConfig>)
    ensures config.None? <==> r.None?
    ensures config.Some? ==> FieldValue(r.value, f) == v
    ensures config.Some? ==> forall g :: g != f ==> FieldValue(r.value, g) == FieldValue(config.value, g)
    ensures config.Some? ==> r.value.modes == config.value.modes
    ensures config.Some? ==> forall k :: Examples(r.value, k) == Examples(config.value, k)
  {
    match config
    case None => None
    case Some(c) =>
      Some(match f
        case Name => c.(name := v)
        case Model => c.(model := v)
        case Conversing => c.(conversing := v)
        case Coding => c.(coding := v)
        case SavingMemory => c.(savingMemory := v))
  }

  // ---------------------------------------------------------------------
  // Modes

  /** The flags after `handleModesChange`: a mode is on iff some selected option names it. */
  function ModesFromSelection(modes: map<string, bool>, selected: seq<string>): map<string, bool>
  {
    map m | m in modes :: m in selected
  }

  /** The flags after `handleSelectAllModes`. */
  function AllModesOn(modes: map<string, bool>): map<string, bool>
  {
    map m | m in modes :: true
  }

  /** `selectedModes`: the options shown as selected are the modes whose flag is true. */
  function SelectedModes(modes: map<string, bool>): set<string>
  {
    set m | m in modes && modes[m]
  }

  /** The label of a mode option: first character upper-cased, first '_' after it turned into a space. */
  function ModeLabel(mode: string): (text: string)
    ensures |text| == |mode|
    ensures |mode| > 0 ==> text[0] == Text.UpperAscii(mode[0])
    ensures |mode| > 0 && '_' !in mode[1..] ==> text[1..] == mode[1..]
    ensures |mode| > 0 && '_' in mode[1..] ==>
      var k := Text.FirstIndex(mode[1..], '_');
      text[1..] == mode[1..][..k] + " " + mode[1..][k + 1..]
  {
    if |mode| == 0 then "" else [Text.UpperAscii(mode[0])] + Text.ReplaceFirst(mode[1..], '_', ' ')
  }

  /** `modeOptions`: one option per mode, keyed by its value, carrying its label. */
  function ModeOptions(modes: map<string, bool>): (options: map<string, string>)
    ensures options.Keys == modes.Keys
    ensures forall m :: m in modes ==> options[m] == ModeLabel(m)
  {
    map m | m in modes :: ModeLabel(m)
  }

  /** handleModesChange: the `forEach` over the mode names, assigning into a copy of the flags. */
  method HandleModesChange(config: Option<AgentConfig>, selected: seq<string>) returns (r: Option<AgentConfig>)
    ensures config.None? ==> r.None?
    ensures config.Some? ==> r == Some(config.value.(modes := ModesFromSelection(config.value.modes, selected)))
  {
    if config.None? {
      return None;
    }
    var c := config.value;
    var newModes := c.modes;
    var pending := newModes.Keys;
    while pending != {}
      invariant pending <= c.modes.Keys
      invariant newModes.Keys == c.modes.Keys
      invariant forall m :: m in newModes && m !in pending ==> newModes[m] == (m in selected)
      decreases pending
    {
      var mode :| mode in pending;
      newModes := newModes[mode := mode in selected];
      pending := pending - {mode};
    }
    assert newModes == ModesFromSelection(c.modes, selected);
    r := Some(c.(modes := newModes));
  }

  /** handleSelectAllModes: the `forEach` setting every flag of a copy to true. */
  method HandleSelectAllModes(config: Option<AgentConfig>) returns (r: Option<AgentConfig>)
    ensures config.None? ==> r.None?
    ensures config.Some? ==> r == Some(config.value.(modes := AllModesOn(config.value.modes)))
  {
    if config.None? {
      return None;
    }
    var c := config.value;
    var newModes := c.modes;
    var pending := newModes.Keys;
    while pending != {}
      invariant pending <= c.modes.Keys
      invariant newModes.Keys == c.modes.Keys
      invariant forall m :: m in newModes && m !in pending ==> newModes[m]
      decreases pending
    {
      var mode :| mode in pending;
      newModes := newModes[mode := true];
      pending := pending - {mode};
    }
    assert newModes == AllModesOn(c.modes);
    r := Some(c.(modes := newModes));
  }

  /** A selection keeps the set of mode names; a mode is on iff it was selected. */
  lemma SelectionKeepsModeNames(modes: map<string, bool>, selected: seq<string>)
    ensures ModesFromSelection(modes, selected).Keys == modes.Keys
    ensures forall m :: m in modes ==>
      (ModesFromSelection(modes, selected)[m] <==> exists i :: 0 <= i < |selected| && selected[i] == m)
  {
  }

  /** What the selector shows after a change is the selection, restricted to existing modes. */
  lemma {:induction false} SelectionShownBack(modes: map<string, bool>, selected: seq<string>)
    ensures SelectedModes(ModesFromSelection(modes, selected)) == modes.Keys * set x | x in selected
  {
    var after := ModesFromSelection(modes, selected);
    forall m ensures m in SelectedModes(after) <==> m in modes.Keys * set x | x in selected {
      if m in modes {
        assert after[m] == (m in selected);
      }
    }
  }

  /** Re-submitting the selection currently shown changes nothing. */
  lemma {:induction false} ReselectingIsIdentity(modes: map<string, bool>, selected: seq<string>)
    requires modes.Keys * (set x | x in selected) == SelectedModes(modes)
    ensures ModesFromSelection(modes, selected) == modes
  {
    var after := ModesFromSelection(modes, selected);
    forall m | m in modes ensures after[m] == modes[m] {
      assert m in SelectedModes(modes) <==> m in selected;
    }
  }

  /** Select-all keeps the names, turns every mode on, is idempotent, and equals selecting every name. */
  lemma SelectAllModesProperties(modes: map<string, bool>, selected: seq<string>)
    ensures AllModesOn(modes).Keys == modes.Keys
    ensures SelectedModes(AllModesOn(modes)) == modes.Keys
    ensures AllModesOn(AllModesOn(modes)) == AllModesOn(modes)
    ensures modes.Keys <= (set x | x in selected) ==> ModesFromSelection(modes, selected) == AllModesOn(modes)
  {
  }

  // ---------------------------------------------------------------------
  // Examples

  /** addExample: append one empty example to the chosen list. */
  function AddExample(config: Option<AgentConfig>, kind: ExampleKind): (r: Option<AgentConfig>)
    ensures config.None? <==> r.None?
    ensures config.Some? ==>
      var before, after := Examples(config.value, kind), Examples(r.value, kind);
      && |after| == |before| + 1
      && after[..|before|] == before
      && after[|before|] == []
      && SameExceptExamples(config.value, r.value, kind)
  {
    match config
    case None => None
    case Some(c) => Some(WithExamples(c, kind, Examples(c, kind) + [[]]))
  }

  /** Where Array.prototype.splice starts for a start argument `index` on a list of length `len`. */
  function SpliceStart(len: nat, index: int): nat
  {
    if index < 0 then (if len + index < 0 then 0 else len + index)
    else if index > len then len
    else index
  }

  /** `xs.splice(index, 1)` on a copy: removes one element if the start is inside the list. */
  function SpliceOne<T>(xs: seq<T>, index: int): (r: seq<T>)
    ensures SpliceStart(|xs|, index) < |xs| ==>
      var k := SpliceStart(|xs|, index);
      && |r| == |xs| - 1
      && (forall j :: 0 <= j < k ==> r[j] == xs[j])
      && (forall j :: k <= j < |r| ==> r[j] == xs[j + 1])
    ensures SpliceStart(|xs|, index) >= |xs| ==> r == xs
  {
    var k := SpliceStart(|xs|, index);
    if k < |xs| then xs[..k] + xs[k + 1..] else xs
  }

  /** removeExample: delete the example at `index` (splice semantics, so a negative index counts from the end). */
  function RemoveExample(config: Option<AgentConfig>, kind: ExampleKind, index: int): (r: Option<AgentConfig>)
    ensures config.None? <==> r.None?
    ensures config.Some? ==>
      var before, after := Examples(config.value, kind), Examples(r.value, kind);
      && SameExceptExamples(config.value, r.value, kind)
      && (0 <= index < |before| ==>
            && |after| == |before| - 1
            && after == before[..index] + before[index + 1..])
      && (-|before| <= index < 0 ==> after == before[..|before| + index] + before[|before| + index + 1..])
      && (index < -|before| ==> after == if |before| == 0 then before else before[1..])
      && (index >= |before| ==> after == before)
  {
    match config
    case None => None
    case Some(c) => Some(WithExamples(c, kind, SpliceOne(Examples(c, kind), index)))
  }

  function SetMessageField(m: Message, field: MessageField, value: string): Message
  {
    match field
    case Role => m.(role := Some(value))
    case Content => m.(content := Some(value))
  }

  function MessageFieldValue(m: Message, field: MessageField): Option<string>
  {
    match field
    case Role => m.role
    case Content => m.content
  }

  /**
   * updateExample: set one field of message (exampleIndex, messageIndex). A
   * message index equal to the example's length appends a message built from
   * nothing but that field ("Add Message"). A missing example makes the source
   * throw; an index outside 0..length is not an element index of the array.
   */
  function UpdateExample(config: Option<AgentConfig>, kind: ExampleKind, exampleIndex: int,
                         messageIndex: int, field: MessageField, value: string): (r: Result<Option<AgentConfig>, EditError>)
    ensures config.None? ==> r == Success(None)
    ensures config.Some? ==>
      var xs := Examples(config.value, kind);
      && (r == Failure(NoSuchExample) <==> !(0 <= exampleIndex < |xs|))
      && (r == Failure(NotAnElementIndex) <==>
            0 <= exampleIndex < |xs| && !(0 <= messageIndex <= |xs[exampleIndex]|))
    ensures config.Some? && r.Success? ==>
      var xs := Examples(config.value, kind);
      var ex := xs[exampleIndex];
      && r.value.Some?
      && SameExceptExamples(config.value, r.value.value, kind)
      && var xs' := Examples(r.value.value, kind);
      && |xs'| == |xs|
      && (forall i :: 0 <= i < |xs| && i != exampleIndex ==> xs'[i] == xs[i])
      && var ex' := xs'[exampleIndex];
      && |ex'| == (if messageIndex == |ex| then |ex| + 1 else |ex|)
      && (forall j :: 0 <= j < |ex| && j != messageIndex ==> ex'[j] == ex[j])
      && MessageFieldValue(ex'[messageIndex], field) == Some(value)
      && (forall g :: g != field ==>
            MessageFieldValue(ex'[messageIndex], g) ==
              (if messageIndex < |ex| then MessageFieldValue(ex[messageIndex], g) else None))
  {
    match config
    case None => Success(None)
    case Some(c) =>
      var xs := Examples(c, kind);
      if !(0 <= exampleIndex < |xs|) then Failure(NoSuchExample)
      else
        var ex := xs[exampleIndex];
        if !(0 <= messageIndex <= |ex|) then Failure(NotAnElementIndex)
        else
          var current := if messageIndex < |ex| then ex[messageIndex] else Message(None, None);
          var updated := SetMessageField(current, field, value);
          var ex' := if messageIndex < |ex| then ex[messageIndex := updated] else ex + [updated];
          Success(Some(WithExamples(c, kind, xs[exampleIndex := ex'])))
  }

  /** "Add Message" appends a message whose role is 'user' and which has no content. */
  lemma AddMessageAppendsUserTurn(c: AgentConfig, kind: ExampleKind, exampleIndex: nat)
    requires exampleIndex < |Examples(c, kind)|
    ensures
      var ex := Examples(c, kind)[exampleIndex];
      var r := UpdateExample(Some(c), kind, exampleIndex, |ex|, Role, "user");
      && r.Success? && r.value.Some?
      && Examples(r.value.value, kind)[exampleIndex] == ex + [Message(Some("user"), None)]
  {
  }
}
