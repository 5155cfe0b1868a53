/**
 * Two helpers of src/data/dialogue.ts: `getCharVariantFromDialogue`, which
 * pulls the character variant out of a `@c{...}` marker in a message, and
 * `initTrainerTypeDialogue`, which copies each trainer type's encounter,
 * victory and defeat messages into its trainer config. The dialogue table
 * itself is input.
 */
module Dialogue {
  import opened Wrappers

  // ---------------------------------------------------------------------
  // getCharVariantFromDialogue: the regular expression /@c\{(.*?)\}/
  // ---------------------------------------------------------------------

  /** The characters `.` does not match in a JavaScript regular expression. */
  predicate IsLineTerminator(c: char) {
    c == '\n' || c == '\r' || c == '\U{2028}' || c == '\U{2029}'
  }

  /** Characters the lazy `(.*?)` cannot run past: the closing brace ends it, a line terminator fails it. */
  predicate Stops(c: char) {
    c == '}' || IsLineTerminator(c)
  }

  /** The group opened at `from` can close at the brace `j`: nothing before `j` stops it. */
  predicate ClosesAt(s: string, from: nat, j: int) {
    from <= j < |s| && s[j] == '}' && forall k :: from <= k < j ==> !Stops(s[k])
  }

  /** `@c{` starts at `i` and its group closes at `j`: a match of the regular expression. */
  predicate IsMatch(s: string, i: nat, j: int) {
    i + 3 <= |s| && s[i..i + 3] == "@c{" && ClosesAt(s, i + 3, j)
  }

  /** `p` occurs in `s`. */
  predicate IsSubstring(p: string, s: string) {
    exists i :: 0 <= i <= |s| - |p| && IsOccurrence(p, s, i)
  }

  predicate IsOccurrence(p: string, s: string, i: int) {
    0 <= i <= |s| - |p| && s[i..i + |p|] == p
  }

  /** The lazy group from `from`: the first brace, unless a line terminator or the end comes first. */
  function CloseAt(s: string, from: nat): (r: Option<nat>)
    requires from <= |s|
    ensures r.Some? ==> ClosesAt(s, from, r.value)
    ensures r.None? ==> forall j :: !ClosesAt(s, from, j)
    decreases |s| - from
  {
    if from == |s| then None
    else if s[from] == '}' then Some(from)
    else if IsLineTerminator(s[from]) then None
    else
      assert forall j :: ClosesAt(s, from, j) ==> ClosesAt(s, from + 1, j);
      CloseAt(s, from + 1)
  }

  /** `exec` scanning start positions from `i` on: the leftmost start that matches, with its closing brace. */
  function FindVariant(s: string, i: nat): (r: Option<(nat, nat)>)
    ensures r.Some? ==> i <= r.value.0 && IsMatch(s, r.value.0, r.value.1)
    ensures r.Some? ==> forall i', j :: i <= i' < r.value.0 ==> !IsMatch(s, i', j)
    ensures r.None? ==> forall i', j :: i <= i' ==> !IsMatch(s, i', j)
    decreases |s| - i
  {
    if i + 3 > |s| then None
    else if s[i..i + 3] == "@c{" && CloseAt(s, i + 3).Some? then Some((i, CloseAt(s, i + 3).value))
    else FindVariant(s, i + 1)
  }

  /**
   * `getCharVariantFromDialogue`: the captured group of the first match, or
   * "neutral" when there is none. The group never holds a brace or a line
   * terminator, and with its marker it is a piece of the message.
   */
  function GetCharVariantFromDialogue(message: string): (r: string)
    ensures forall k :: 0 <= k < |r| ==> !Stops(r[k])
    ensures r == "neutral" || IsSubstring("@c{" + r + "}", message)
  {
    match FindVariant(message, 0)
    case None => "neutral"
    case Some((i, j)) =>
      SliceThree(message, i, i + 3, j);
      assert IsOccurrence("@c{" + message[i + 3..j] + "}", message, i);
      message[i + 3..j]
  }

  lemma SliceThree(s: string, a: nat, b: nat, c: nat)
    requires a <= b <= c < |s|
    ensures s[a..c + 1] == s[a..b] + s[b..c] + [s[c]]
  {
    assert s[a..c + 1] == s[a..c] + [s[c]];
    assert s[a..c] == s[a..b] + s[b..c];
  }

  /** A group closes at one brace at most: the first one. */
  lemma CloseIsUnique(s: string, from: nat, j1: int, j2: int)
    requires ClosesAt(s, from, j1) && ClosesAt(s, from, j2)
    ensures j1 == j2
  {
    if j1 < j2 {
      assert Stops(s[j1]);
    } else if j2 < j1 {
      assert Stops(s[j2]);
    }
  }

  /** The variant is the text between the leftmost `@c{` that has a closing brace on its line and that brace. */
  lemma CharVariantIsLeftmostMatch(message: string, i: nat, j: int)
    requires IsMatch(message, i, j)
    requires forall i', j' :: 0 <= i' < i ==> !IsMatch(message, i', j')
    ensures GetCharVariantFromDialogue(message) == message[i + 3..j]
  {
    var r := FindVariant(message, 0);
    assert r.Some?;
    var (i0, j0) := r.value;
    assert i0 == i;
    CloseIsUnique(message, i + 3, j, j0);
  }

  /** No match gives "neutral". */
  lemma CharVariantNeutral(message: string)
    requires forall i, j :: !IsMatch(message, i, j)
    ensures GetCharVariantFromDialogue(message) == "neutral"
  {
    assert FindVariant(message, 0).None?;
  }

  /** An empty marker gives the empty variant, not "neutral"; a marker split by a line break gives "neutral". */
  lemma CharVariantExamples()
    ensures GetCharVariantFromDialogue("@c{}") == ""
    ensures GetCharVariantFromDialogue("Hi @c{smile}!") == "smile"
    ensures GetCharVariantFromDialogue("@c{a\nb}") == "neutral"
  {
    CharVariantIsLeftmostMatch("@c{}", 0, 3);
    CharVariantSmile();
    CharVariantAcrossLines();
  }

  /** The first match may start after other text. */
  lemma CharVariantSmile()
    ensures GetCharVariantFromDialogue("Hi @c{smile}!") == "smile"
  {
    var m := "Hi @c{smile}!";
    assert IsMatch(m, 3, 11);
    forall i', j' | 0 <= i' < 3
      ensures !IsMatch(m, i', j')
    {
      assert m[i'] != '@';
    }
    CharVariantIsLeftmostMatch(m, 3, 11);
  }

  /** A variant name does not run across a line break. */
  lemma CharVariantAcrossLines()
    ensures GetCharVariantFromDialogue("@c{a\nb}") == "neutral"
  {
    var n := "@c{a\nb}";
    forall i: nat, j: int
      ensures !IsMatch(n, i, j)
    {
      if i == 0 && 3 <= j < |n| && n[j] == '}' {
        assert Stops(n[4]);
      } else if 0 < i && i + 3 <= |n| {
        assert n[i..i + 3][0] == n[i] != '@';
      }
    }
    CharVariantNeutral(n);
  }

  // ---------------------------------------------------------------------
  // initTrainerTypeDialogue
  // ---------------------------------------------------------------------

  /** A message slot: absent or `undefined`, one message key, or a list of keys. */
  datatype MessageValue = Undefined | Text(text: string) | Texts(texts: seq<string>)

  /** JavaScript truthiness of a slot: a non-empty string or any array. */
  predicate Truthy(v: MessageValue)
    ensures v == Undefined || v == Text("") ==> !Truthy(v)
    ensures v.Texts? ==> Truthy(v)
  {
    (v.Text? && v.text != "") || v.Texts?
  }

  /** `TrainerTypeMessages`; a missing slot is `Undefined`. */
  datatype TrainerTypeMessages = TrainerTypeMessages(encounter: MessageValue, victory: MessageValue, defeat: MessageValue)

  /** A dialogue table entry: one set of messages, or an array (the second element for the female trainer). */
  datatype DialogueEntry = Single(messages: TrainerTypeMessages) | Multiple(list: seq<TrainerTypeMessages>)

  /** The source reads `messages[0]` of every array entry, so an array entry is never empty. */
  predicate ValidEntry(e: DialogueEntry) {
    e.Multiple? ==> |e.list| > 0
  }

  datatype MessageType = Encounter | Victory | Defeat

  /** The message types copied, in order. */
  const MessageTypes: seq<MessageType> := [Encounter, Victory, Defeat]

  function TypeName(t: MessageType): string {
    match t
    case Encounter => "encounter"
    case Victory => "victory"
    case Defeat => "defeat"
  }

  /** `messages[messageType]`. */
  function Get(m: TrainerTypeMessages, t: MessageType): MessageValue {
    match t
    case Encounter => m.encounter
    case Victory => m.victory
    case Defeat => m.defeat
  }

  /** `toUpperCase` on a lower-case ASCII letter; other characters are kept. */
  function UpperAscii(c: char): char {
    if 'a' <= c <= 'z' then (c as int - 32) as char else c
  }

  /** `` `${messageType}Messages` ``. */
  function FieldName(t: MessageType): (r: string)
  {
    TypeName(t) + "Messages"
  }

  /** `` `female${first letter upper-cased}${rest}Messages` ``. */
  function FemaleFieldName(t: MessageType): (r: string)
  {
    var n := TypeName(t);
    "female" + [UpperAscii(n[0])] + n[1..] + "Messages"
  }

  /** A trainer config's message fields, by field name. */
  type Config = map<string, MessageValue>

  function Lookup(config: Config, field: string): Option<MessageValue> {
    if field in config then Some(config[field]) else None
  }

  /** One pass of the inner loop: copy one message type of `entry` into `config`. */
  function CopyMessages(config: Config, entry: DialogueEntry, t: MessageType): (r: Config)
    requires ValidEntry(entry)
    ensures config.Keys <= r.Keys <= config.Keys + {FieldName(t), FemaleFieldName(t)}
    ensures forall f :: f in config && f != FieldName(t) && f != FemaleFieldName(t) ==> r[f] == config[f]
  {
    match entry
    case Multiple(list) =>
      var withBase := if Truthy(Get(list[0], t)) then config[FieldName(t) := Get(list[0], t)] else config;
      if |list| > 1 then withBase[FemaleFieldName(t) := Get(list[1], t)] else withBase
    case Single(messages) => config[FieldName(t) := Get(messages, t)]
  }

  /** The first `n` passes of the inner loop. */
  function CopyTypes(config: Config, entry: DialogueEntry, n: nat): (r: Config)
    requires ValidEntry(entry) && n <= |MessageTypes|
    ensures config.Keys <= r.Keys
  {
    if n == 0 then config
    else
      CopyMessages(CopyTypes(config, entry, n - 1), entry, MessageTypes[n - 1])
  }

  /** All of the inner loop for one trainer type. */
  function ApplyEntry(config: Config, entry: DialogueEntry): (r: Config)
    requires ValidEntry(entry)
    ensures config.Keys <= r.Keys
    ensures forall f :: f in config && FieldOf(f).None? ==> r[f] == config[f]
  {
    assert forall f :: f in config && FieldOf(f).None? ==> CopyTypes(config, entry, |MessageTypes|)[f] == config[f] by {
      forall f | f in config && FieldOf(f).None? {
        CopyTypesFields(config, entry, |MessageTypes|, f);
      }
    }
    CopyTypes(config, entry, |MessageTypes|)
  }

  /** Which message field a name is, if any: the type, and whether it is the female one. */
  function FieldOf(field: string): Option<(MessageType, bool)> {
    if field == "encounterMessages" then Some((Encounter, false))
    else if field == "victoryMessages" then Some((Victory, false))
    else if field == "defeatMessages" then Some((Defeat, false))
    else if field == "femaleEncounterMessages" then Some((Encounter, true))
    else if field == "femaleVictoryMessages" then Some((Victory, true))
    else if field == "femaleDefeatMessages" then Some((Defeat, true))
    else None
  }

  /** The base field names spelled out. */
  lemma BaseFieldNameIs(t: MessageType)
    ensures FieldName(t) == match t
                            case Encounter => "encounterMessages"
                            case Victory => "victoryMessages"
                            case Defeat => "defeatMessages"
  {
  }

  /** The female field names spelled out: the type's first letter is upper-cased. */
  lemma FemaleFieldNameIs(t: MessageType)
    ensures FemaleFieldName(t) == match t
                                  case Encounter => "femaleEncounterMessages"
                                  case Victory => "femaleVictoryMessages"
                                  case Defeat => "femaleDefeatMessages"
  {
    match t
    case Encounter => FemaleEncounterName();
    case Victory => FemaleVictoryName();
    case Defeat => FemaleDefeatName();
  }

  lemma FemaleEncounterName()
    ensures FemaleFieldName(Encounter) == "femaleEncounterMessages"
  {
    var n := TypeName(Encounter);
    assert [UpperAscii(n[0])] + n[1..] == "Encounter";
    assert FemaleFieldName(Encounter) == "female" + "Encounter" + "Messages";
  }

  lemma FemaleVictoryName()
    ensures FemaleFieldName(Victory) == "femaleVictoryMessages"
  {
    var n := TypeName(Victory);
    assert [UpperAscii(n[0])] + n[1..] == "Victory";
    assert FemaleFieldName(Victory) == "female" + "Victory" + "Messages";
  }

  lemma FemaleDefeatName()
    ensures FemaleFieldName(Defeat) == "femaleDefeatMessages"
  {
    var n := TypeName(Defeat);
    assert [UpperAscii(n[0])] + n[1..] == "Defeat";
    assert FemaleFieldName(Defeat) == "female" + "Defeat" + "Messages";
  }

  /**
   * The six field names are the ones listed in `FieldOf`, so they are
   * distinct and name their own type.
   */
  lemma FieldNames(t: MessageType)
    ensures FieldOf(FieldName(t)) == Some((t, false))
    ensures FieldOf(FemaleFieldName(t)) == Some((t, true))
  {
    BaseFieldNameIs(t);
    FemaleFieldNameIs(t);
  }

  /** `FieldOf` recognises exactly the six field names. */
  lemma FieldOfNames(field: string)
    ensures FieldOf(field).Some? ==>
              var (t, female) := FieldOf(field).value;
              field == if female then FemaleFieldName(t) else FieldName(t)
  {
    if FieldOf(field).Some? {
      var (t, _) := FieldOf(field).value;
      FieldNames(t);
      BaseFieldNameIs(t);
      FemaleFieldNameIs(t);
    }
  }

  /**
   * What a field holds after the copy, field by field: a base field takes the
   * single entry's slot unconditionally, or the first array element's slot
   * when that is truthy; a female field takes the second array element's slot,
   * even `undefined`, when there is one; every other field is untouched.
   */
  function ExpectedField(config: Config, entry: DialogueEntry, field: string): Option<MessageValue>
    requires ValidEntry(entry)
  {
    match FieldOf(field)
    case None => Lookup(config, field)
    case Some((t, false)) =>
      if entry.Single? then Some(Get(entry.messages, t))
      else if Truthy(Get(entry.list[0], t)) then Some(Get(entry.list[0], t))
      else Lookup(config, field)
    case Some((t, true)) =>
      if entry.Multiple? && |entry.list| > 1 then Some(Get(entry.list[1], t))
      else Lookup(config, field)
  }

  /** After `n` passes, the fields of the first `n` types are as expected and the rest are untouched. */
  lemma {:induction false} CopyTypesFields(config: Config, entry: DialogueEntry, n: nat, field: string)
    requires ValidEntry(entry) && n <= |MessageTypes|
    ensures Lookup(CopyTypes(config, entry, n), field) ==
            match FieldOf(field)
            case Some((t, _)) => if t in MessageTypes[..n] then ExpectedField(config, entry, field) else Lookup(config, field)
            case None => Lookup(config, field)
  {
    if n > 0 {
      CopyTypesFields(config, entry, n - 1, field);
      var t := MessageTypes[n - 1];
      CopyMessagesField(CopyTypes(config, entry, n - 1), entry, t, field);
      TypesPrefixStep(n);
    }
  }

  /** The first `n` message types are the first `n - 1` and one more type, which is new. */
  lemma TypesPrefixStep(n: nat)
    requires 0 < n <= |MessageTypes|
    ensures forall u :: u in MessageTypes[..n] <==> u in MessageTypes[..n - 1] || u == MessageTypes[n - 1]
    ensures MessageTypes[n - 1] !in MessageTypes[..n - 1]
  {
    assert MessageTypes[..n] == MessageTypes[..n - 1] + [MessageTypes[n - 1]];
    if n == 1 {
      assert MessageTypes[..0] == [];
    } else if n == 2 {
      assert MessageTypes[..1] == [Encounter];
    } else {
      assert MessageTypes[..2] == [Encounter, Victory];
    }
  }

  /** One pass touches only the two fields of its own type. */
  lemma CopyMessagesField(config: Config, entry: DialogueEntry, t: MessageType, field: string)
    requires ValidEntry(entry)
    ensures Lookup(CopyMessages(config, entry, t), field) ==
            match FieldOf(field)
            case Some((u, _)) => if u == t then ExpectedField(config, entry, field) else Lookup(config, field)
            case None => Lookup(config, field)
  {
    FieldNames(t);
    var r := CopyMessages(config, entry, t);
    if field == FieldName(t) {
      assert FieldOf(field) == Some((t, false));
    } else if field == FemaleFieldName(t) {
      assert FieldOf(field) == Some((t, true));
    } else {
      FieldOfNames(field);
      assert Lookup(r, field) == Lookup(config, field);
    }
  }

  /** `initTrainerTypeDialogue` on one trainer config yields `ExpectedField` for every field. */
  lemma ApplyEntryFields(config: Config, entry: DialogueEntry, field: string)
    requires ValidEntry(entry)
    ensures Lookup(ApplyEntry(config, entry), field) == ExpectedField(config, entry, field)
  {
    CopyTypesFields(config, entry, |MessageTypes|, field);
    assert MessageTypes[..|MessageTypes|] == MessageTypes;
    assert ApplyEntry(config, entry) == CopyTypes(config, entry, |MessageTypes|);
    if FieldOf(field).Some? {
      var (t, _) := FieldOf(field).value;
      var k := match t case Encounter => 0 case Victory => 1 case Defeat => 2;
      assert MessageTypes[k] == t;
    }
  }

  /** The global `trainerConfigs`, one message config per trainer type. */
  class TrainerConfigs {
    var configs: map<int, Config>

    constructor (configs: map<int, Config>)
      ensures this.configs == configs
    {
      this.configs := configs;
    }

    /**
     * `initTrainerTypeDialogue`: every trainer type in the dialogue table must
     * have a config. `trainerTypes` is the table's keys as `Object.keys` lists
     * integer keys: each once, ascending. Each type writes only its own
     * config, so that order does not show in the result.
     */
    method InitTrainerTypeDialogue(dialogue: map<int, DialogueEntry>, trainerTypes: seq<int>)
      requires forall k :: k in dialogue <==> k in trainerTypes
      requires forall i, j :: 0 <= i < j < |trainerTypes| ==> trainerTypes[i] < trainerTypes[j]
      requires forall k :: k in dialogue ==> k in configs && ValidEntry(dialogue[k])
      modifies this
      ensures configs == map k | k in old(configs) :: if k in dialogue then ApplyEntry(old(configs)[k], dialogue[k]) else old(configs)[k]
    {
      for n := 0 to |trainerTypes|
        invariant configs.Keys == old(configs).Keys
        invariant forall k :: k in configs ==>
                    configs[k] == if k in trainerTypes[..n] then ApplyEntry(old(configs)[k], dialogue[k]) else old(configs)[k]
      {
        var trainerType := trainerTypes[n];
        assert trainerType !in trainerTypes[..n];
        assert trainerTypes[..n + 1] == trainerTypes[..n] + [trainerType];
        CopyDialogue(trainerType, dialogue[trainerType]);
      }
      assert trainerTypes[..|trainerTypes|] == trainerTypes;
      ghost var expected := map k | k in old(configs) :: if k in dialogue then ApplyEntry(old(configs)[k], dialogue[k]) else old(configs)[k];
      assert configs.Keys == expected.Keys;
      assert forall k :: k in configs ==> configs[k] == expected[k];
    }

    /** The inner loop of `initTrainerTypeDialogue`: each message type of one entry into its trainer's config. */
    method CopyDialogue(trainerType: int, messages: DialogueEntry)
      requires trainerType in configs && ValidEntry(messages)
      modifies this
      ensures configs == old(configs)[trainerType := ApplyEntry(old(configs)[trainerType], messages)]
    {
      for i := 0 to |MessageTypes|
        invariant configs == old(configs)[trainerType := CopyTypes(old(configs)[trainerType], messages, i)]
      {
        var messageType := MessageTypes[i];
        var config := configs[trainerType];
        if messages.Multiple? {
          if Truthy(Get(messages.list[0], messageType)) {
            config := config[FieldName(messageType) := Get(messages.list[0], messageType)];
          }
          if |messages.list| > 1 {
            config := config[FemaleFieldName(messageType) := Get(messages.list[1], messageType)];
          }
        } else {
          config := config[FieldName(messageType) := Get(messages.messages, messageType)];
        }
        configs := configs[trainerType := config];
      }
    }
  }
}
