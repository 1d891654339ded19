/** What the server advertises (RPL_ISUPPORT), as far as the model reads it. */
module ISupport {
  import opened Units

  datatype CaseMapping = AsciiCase | Rfc1459 | Rfc1459Strict

  datatype PrefixEntry = PrefixEntry(mode: Unit, prefix: Unit)

  datatype Support = Support(
    caseMapping: CaseMapping,
    chanTypes: Text,
    listModes: Text,
    parameterModes: Text,
    parameterWhenSetModes: Text,
    flagModes: Text,
    prefixes: seq<PrefixEntry>,
    modesPerCommand: Option<nat>,
    maxNickLength: Option<nat>)

  predicate IsChannel(target: Text, support: Support) {
    target != [] && target[0] in support.chanTypes
  }
}

/**
  * MODE strings: parsing them against what the server advertises, rendering a
  * list of changes back into commands, and applying changes. A mode letter is
  * one code unit.
  */
module Modes {
  import opened Units
  import opened ISupport

  datatype ModeKind = ListKind | ParameterKind | ParameterWhenSetKind | FlagKind | PrefixKind | UnknownKind

  datatype ModeChange = ModeChange(add: bool, mode: Unit, kind: ModeKind, parameter: Option<Text>)

  datatype ModeResult = ModeResult(changes: seq<ModeChange>, truncated: bool, unused: seq<Text>)

  function Classify(mode: Unit, support: Support): ModeKind {
    if exists e | e in support.prefixes :: e.mode == mode then PrefixKind
    else if mode in support.listModes then ListKind
    else if mode in support.parameterModes then ParameterKind
    else if mode in support.parameterWhenSetModes then ParameterWhenSetKind
    else if mode in support.flagModes then FlagKind
    else UnknownKind
  }

  predicate TakesParameter(kind: ModeKind, add: bool) {
    match kind
    case ListKind | ParameterKind | PrefixKind => true
    case ParameterWhenSetKind => add
    case FlagKind | UnknownKind => false
  }

  // ---------- Parsing ----------

  /** The parse of the mode string from position `i` on, with `params` still to draw from. */
  function ParseFrom(modes: Text, i: nat, add: bool, params: seq<Text>, support: Support): ModeResult
    requires i <= |modes|
    decreases |modes| - i
  {
    if i == |modes| then ModeResult([], false, params)
    else if modes[i] == PLUS then ParseFrom(modes, i + 1, true, params, support)
    else if modes[i] == MINUS then ParseFrom(modes, i + 1, false, params, support)
    else
      var kind := Classify(modes[i], support);
      var takes := TakesParameter(kind, add);
      var change := ModeChange(add, modes[i], kind, if takes && params != [] then Some(params[0]) else None);
      var rest := ParseFrom(modes, i + 1, add, if takes && params != [] then params[1..] else params, support);
      ModeResult([change] + rest.changes, (takes && params == []) || rest.truncated, rest.unused)
  }

  function ParseModes(modes: Text, params: seq<Text>, support: Support): ModeResult {
    ParseFrom(modes, 0, true, params, support)
  }

  /** One letter read off: its change, and the parse of what follows with the parameters still to draw from. */
  lemma ParseLetter(modes: Text, i: nat, add: bool, params: seq<Text>, support: Support)
    requires i < |modes| && modes[i] != PLUS && modes[i] != MINUS
    ensures var takes := TakesParameter(Classify(modes[i], support), add);
            var drawn := takes && params != [];
            var parameter := if drawn then Some(params[0]) else None;
            var change := ModeChange(add, modes[i], Classify(modes[i], support), parameter);
            var rest := ParseFrom(modes, i + 1, add, if drawn then params[1..] else params, support);
            ParseFrom(modes, i, add, params, support)
              == ModeResult([change] + rest.changes, (takes && params == []) || rest.truncated, rest.unused)
  {
    hide Classify;
    hide TakesParameter;
  }

  method ParseChannelModes(modes: Text, params: seq<Text>, support: Support) returns (r: ModeResult)
    ensures r == ParseModes(modes, params, support)
  {
    hide Classify;
    hide TakesParameter;
    var changes: seq<ModeChange> := [];
    var add, next, truncated := true, 0, false;
    ghost var left, rest := params, ParseModes(modes, params, support);
    for i := 0 to |modes|
      invariant 0 <= next <= |params| && left == params[next..]
      invariant rest == ParseFrom(modes, i, add, left, support)
      invariant var all := ParseModes(modes, params, support);
                && all.changes == changes + rest.changes
                && all.truncated == (truncated || rest.truncated)
                && all.unused == rest.unused
    {
      if modes[i] == PLUS {
        add := true;
      } else if modes[i] == MINUS {
        add := false;
      } else {
        ParseLetter(modes, i, add, left, support);
        var kind := Classify(modes[i], support);
        var parameter: Option<Text> := None;
        if TakesParameter(kind, add) {
          if next < |params| {
            parameter := Some(params[next]);
            next := next + 1;
            left := left[1..];
          } else {
            truncated := true;
          }
        }
        var change := ModeChange(add, modes[i], kind, parameter);
        Regroup(changes, [change], ParseFrom(modes, i + 1, add, left, support).changes);
        changes := changes + [change];
      }
      rest := ParseFrom(modes, i + 1, add, left, support);
    }
    r := ModeResult(changes, truncated, params[next..]);
  }

  // ---------- Rendering ----------

  datatype ModeCommand = ModeCommand(modes: Text, params: seq<Text>)

  function Sign(add: bool): Unit {
    if add then PLUS else MINUS
  }

  /** How one change is written after a given sign. */
  function Written(change: ModeChange, sign: Option<bool>): Text {
    (if sign == Some(change.add) then [] else [Sign(change.add)]) + [change.mode]
  }

  /** The mode string of one command; a sign is written where it changes. */
  function ModeString(batch: seq<ModeChange>, sign: Option<bool>): Text {
    if batch == [] then []
    else
      Written(batch[0], sign) + ModeString(batch[1..], Some(batch[0].add))
  }

  /** The parameter one change is sent with. */
  function Sent(change: ModeChange): seq<Text> {
    if change.parameter.Some? && TakesParameter(change.kind, change.add) then [change.parameter.value] else []
  }

  function ModeParams(batch: seq<ModeChange>): seq<Text> {
    if batch == [] then [] else Sent(batch[0]) + ModeParams(batch[1..])
  }

  function Limit(count: nat, support: Support): (limit: nat)
    ensures limit >= 1
  {
    var perCommand := if support.modesPerCommand.Some? then support.modesPerCommand.value else count;
    if perCommand < 1 then 1 else perCommand
  }

  function Rendered(batch: seq<ModeChange>): ModeCommand {
    ModeCommand(ModeString(batch, None), ModeParams(batch))
  }

  function Least(a: nat, b: nat): nat {
    if a < b then a else b
  }

  function Commands(changes: seq<ModeChange>, limit: nat): seq<ModeCommand>
    requires limit >= 1
    decreases |changes|
  {
    if changes == [] then []
    else
      var n := Least(limit, |changes|);
      [Rendered(changes[..n])] + Commands(changes[n..], limit)
  }

  /** The list as commands, each with as many changes as the server takes. */
  function Rendering(changes: seq<ModeChange>, support: Support): seq<ModeCommand> {
    Commands(changes, Limit(|changes|, support))
  }

  lemma {:induction false} ParamsAppend(batch: seq<ModeChange>, change: ModeChange)
    ensures ModeParams(batch + [change]) == ModeParams(batch) + Sent(change)
    decreases |batch|
  {
    hide Sent;
    if batch == [] {
      assert batch + [change] == [change] && [change][1..] == [];
      assert Sent(change) + [] == Sent(change);
    } else {
      assert (batch + [change])[1..] == batch[1..] + [change];
      ParamsAppend(batch[1..], change);
      Regroup(Sent(batch[0]), ModeParams(batch[1..]), Sent(change));
    }
  }

  lemma {:induction false} StringAppend(batch: seq<ModeChange>, change: ModeChange, sign: Option<bool>)
    ensures var last := if batch == [] then sign else Some(batch[|batch| - 1].add);
            ModeString(batch + [change], sign) == ModeString(batch, sign) + Written(change, last)
    decreases |batch|
  {
    hide Written;
    if batch == [] {
      assert batch + [change] == [change] && [change][1..] == [];
      assert Written(change, sign) + [] == Written(change, sign);
    } else {
      var first, last := Written(batch[0], sign), Some(batch[|batch| - 1].add);
      assert (batch + [change])[1..] == batch[1..] + [change];
      StringAppend(batch[1..], change, Some(batch[0].add));
      Regroup(first, ModeString(batch[1..], Some(batch[0].add)), Written(change, last));
    }
  }

  method RenderBatch(batch: seq<ModeChange>) returns (command: ModeCommand)
    ensures command == Rendered(batch)
  {
    hide ModeString;
    hide ModeParams;
    var modes: Text, params: seq<Text>, sign: Option<bool> := [], [], None;
    NothingRendered();
    for i := 0 to |batch|
      invariant modes == ModeString(batch[..i], None) && params == ModeParams(batch[..i])
      invariant sign == if i == 0 then None else Some(batch[i - 1].add)
    {
      var change := batch[i];
      ParamsAppend(batch[..i], change);
      StringAppend(batch[..i], change, None);
      assert batch[..i + 1] == batch[..i] + [change];
      if Some(change.add) != sign {
        modes := modes + [Sign(change.add)];
        sign := Some(change.add);
      }
      modes := modes + [change.mode];
      if change.parameter.Some? && TakesParameter(change.kind, change.add) {
        params := params + [change.parameter.value];
      }
    }
    assert batch[..|batch|] == batch;
    command := ModeCommand(modes, params);
  }

  lemma NothingRendered()
    ensures ModeString([], None) == [] && ModeParams([]) == []
  {
  }

  /** One turn of the loop: the first batch, and the commands for what is left. */
  lemma CommandsTurn(left: seq<ModeChange>, limit: nat)
    requires limit >= 1 && left != []
    ensures var n := Least(limit, |left|);
            Commands(left, limit) == [Rendered(left[..n])] + Commands(left[n..], limit)
  {
    hide Rendered;
  }

  lemma NoCommands(limit: nat)
    requires limit >= 1
    ensures Commands([], limit) == []
  {
  }

  method SerializeModeChanges(changes: seq<ModeChange>, support: Support) returns (commands: seq<ModeCommand>)
    ensures commands == Rendering(changes, support)
  {
    hide Rendered;
    hide Limit;
    hide Commands;
    commands := [];
    var limit := Limit(|changes|, support);
    NoCommands(limit);
    if changes == [] {
      return;
    }
    var start := 0;
    ghost var left := changes;
    while start < |changes|
      invariant 0 <= start && left == if start < |changes| then changes[start..] else []
      invariant Commands(changes, limit) == commands + Commands(left, limit)
      decreases |changes| - start
    {
      var end := if start + limit < |changes| then start + limit else |changes|;
      ghost var n := Least(limit, |left|);
      CommandsTurn(left, limit);
      assert changes[start..end] == left[..n];
      var command := RenderBatch(changes[start..end]);
      Regroup(commands, [command], Commands(left[n..], limit));
      commands := commands + [command];
      left := left[n..];
      start := start + limit;
    }
  }

  // ---------- Rendering and parsing back ----------

  /** A change as the parser would report it: its kind, its parameter, and a real letter. */
  predicate Canonical(change: ModeChange, support: Support) {
    && change.mode != PLUS && change.mode != MINUS
    && change.kind == Classify(change.mode, support)
    && (change.parameter.Some? <==> TakesParameter(change.kind, change.add))
  }

  predicate AllCanonical(changes: seq<ModeChange>, support: Support) {
    forall c | c in changes :: Canonical(c, support)
  }

  /** Reading a letter with its parameter back. */
  lemma LetterReadBack(modes: Text, i: nat, c: ModeChange, params: seq<Text>, support: Support)
    requires i < |modes| && modes[i] == c.mode && Canonical(c, support)
    ensures var rest := ParseFrom(modes, i + 1, c.add, params, support);
            ParseFrom(modes, i, c.add, Sent(c) + params, support)
              == ModeResult([c] + rest.changes, rest.truncated, rest.unused)
  {
    hide Classify;
    hide TakesParameter;
    hide ParseFrom;
    ParseLetter(modes, i, c.add, Sent(c) + params, support);
    if c.parameter.Some? {
      assert (Sent(c) + params)[1..] == params;
    } else {
      assert Sent(c) + params == params;
    }
  }

  lemma SignReadBack(modes: Text, i: nat, add: bool, before: bool, params: seq<Text>, support: Support)
    requires i < |modes| && modes[i] == Sign(add)
    ensures ParseFrom(modes, i, before, params, support) == ParseFrom(modes, i + 1, add, params, support)
  {
    hide Classify;
    hide TakesParameter;
  }

  /** Reading one written change back, wherever it stands. */
  lemma WrittenReadBack(
      modes: Text, i: nat, c: ModeChange, sign: Option<bool>, add: bool, params: seq<Text>, support: Support)
    requires i + |Written(c, sign)| <= |modes| && modes[i..i + |Written(c, sign)|] == Written(c, sign)
    requires sign.Some? ==> sign.value == add
    requires Canonical(c, support)
    ensures var rest := ParseFrom(modes, i + |Written(c, sign)|, c.add, params, support);
            ParseFrom(modes, i, add, Sent(c) + params, support)
              == ModeResult([c] + rest.changes, rest.truncated, rest.unused)
  {
    hide ParseFrom;
    hide Canonical;
    hide Sent;
    var w := Written(c, sign);
    assert forall k | 0 <= k < |w| :: modes[i + k] == modes[i..i + |w|][k] == w[k];
    assert modes[i] == w[0];
    LetterReadBack(modes, i + |w| - 1, c, params, support);
    if sign != Some(c.add) {
      SignReadBack(modes, i, c.add, add, Sent(c) + params, support);
    }
  }

  lemma {:induction false} BatchRoundTrip(
      modes: Text, i: nat, batch: seq<ModeChange>, sign: Option<bool>, add: bool, support: Support)
    requires i <= |modes| && modes[i..] == ModeString(batch, sign)
    requires sign.Some? ==> sign.value == add
    requires AllCanonical(batch, support)
    ensures ParseFrom(modes, i, add, ModeParams(batch), support) == ModeResult(batch, false, [])
    decreases |batch|
  {
    hide Written;
    hide Sent;
    hide Canonical;
    if batch == [] {
    } else {
      var c := batch[0];
      var w, rest := Written(c, sign), ModeString(batch[1..], Some(c.add));
      assert modes[i..] == w + rest;
      assert modes[i..i + |w|] == modes[i..][..|w|] == w;
      assert modes[i + |w|..] == modes[i..][|w|..] == rest;
      assert c in batch;
      assert AllCanonical(batch[1..], support) by {
        forall d | d in batch[1..] ensures d in batch {}
      }
      BatchRoundTrip(modes, i + |w|, batch[1..], Some(c.add), c.add, support);
      WrittenReadBack(modes, i, c, sign, add, ModeParams(batch[1..]), support);
      assert batch == [c] + batch[1..];
    }
  }

  /** Everything the parser reports is canonical, except where parameters ran out. */
  lemma {:induction false} ParsedAreCanonical(modes: Text, i: nat, add: bool, params: seq<Text>, support: Support)
    requires i <= |modes| && !ParseFrom(modes, i, add, params, support).truncated
    ensures AllCanonical(ParseFrom(modes, i, add, params, support).changes, support)
    decreases |modes| - i
  {
    if i < |modes| {
      if modes[i] == PLUS || modes[i] == MINUS {
        ParsedAreCanonical(modes, i + 1, modes[i] == PLUS, params, support);
      } else {
        var takes := TakesParameter(Classify(modes[i], support), add);
        ParsedAreCanonical(modes, i + 1, add, if takes && params != [] then params[1..] else params, support);
      }
    }
  }

  function ParseCommand(command: ModeCommand, support: Support): ModeResult {
    ParseModes(command.modes, command.params, support)
  }

  /** The changes of several commands, one after another. */
  function ParseAll(commands: seq<ModeCommand>, support: Support): seq<ModeChange> {
    if commands == [] then []
    else ParseCommand(commands[0], support).changes + ParseAll(commands[1..], support)
  }

  /** A command read back in full: nothing missing, nothing left over, no more changes than allowed. */
  predicate ReadsBack(command: ModeCommand, limit: nat, support: Support) {
    var r := ParseCommand(command, support);
    !r.truncated && r.unused == [] && 0 < |r.changes| <= limit
  }

  lemma RenderedReadsBack(batch: seq<ModeChange>, limit: nat, support: Support)
    requires 0 < |batch| <= limit && AllCanonical(batch, support)
    ensures ParseCommand(Rendered(batch), support).changes == batch && ReadsBack(Rendered(batch), limit, support)
  {
    BatchRoundTrip(ModeString(batch, None), 0, batch, None, true, support);
  }

  lemma ParseAllCons(command: ModeCommand, commands: seq<ModeCommand>, support: Support)
    ensures ParseAll([command] + commands, support)
         == ParseCommand(command, support).changes + ParseAll(commands, support)
  {
    hide ParseCommand;
    assert ([command] + commands)[1..] == commands;
  }

  lemma {:induction false} CommandsRoundTrip(changes: seq<ModeChange>, limit: nat, support: Support)
    requires limit >= 1 && AllCanonical(changes, support)
    ensures ParseAll(Commands(changes, limit), support) == changes
    ensures forall c | c in Commands(changes, limit) :: ReadsBack(c, limit, support)
    decreases |changes|
  {
    if changes == [] {
      NoCommands(limit);
    } else {
      hide ReadsBack;
      hide Rendered;
      hide Canonical;
      hide Commands;
      hide ParseAll;
      hide ParseCommand;
      var n := Least(limit, |changes|);
      var commands := Commands(changes[n..], limit);
      CommandsTurn(changes, limit);
      RenderedReadsBack(changes[..n], limit, support);
      CommandsRoundTrip(changes[n..], limit, support);
      ParseAllCons(Rendered(changes[..n]), commands, support);
      assert changes == changes[..n] + changes[n..];
    }
  }

  lemma {:induction false} AllParsedCanonical(commands: seq<ModeCommand>, support: Support)
    requires forall c | c in commands :: !ParseCommand(c, support).truncated
    ensures AllCanonical(ParseAll(commands, support), support)
    decreases |commands|
  {
    if commands == [] {
    } else {
      assert commands[0] in commands;
      ParsedAreCanonical(commands[0].modes, 0, true, commands[0].params, support);
      AllParsedCanonical(commands[1..], support);
    }
  }

  /**
    * Rendering loses nothing. Parsing the rendered commands in order gives back
    * the list, with no parameter missing, exactly when every change is
    * canonical; and then no parameter is left over and no command carries more
    * changes than the server allows.
    */
  lemma SerializingKeepsMeaning(changes: seq<ModeChange>, support: Support)
    ensures var limit := Limit(|changes|, support);
            var commands := Rendering(changes, support);
            && (AllCanonical(changes, support) <==>
                  (ParseAll(commands, support) == changes
                   && forall c | c in commands :: !ParseCommand(c, support).truncated))
            && (AllCanonical(changes, support) ==> forall c | c in commands :: ReadsBack(c, limit, support))
  {
    var limit := Limit(|changes|, support);
    var commands := Commands(changes, limit);
    if AllCanonical(changes, support) {
      CommandsRoundTrip(changes, limit, support);
    } else if forall c | c in commands :: !ParseCommand(c, support).truncated {
      AllParsedCanonical(commands, support);
    }
  }

  // ---------- Applying changes ----------

  datatype ChannelModes = ChannelModes(flags: set<Unit>, params: map<Unit, Text>)

  function ApplyOne(state: ChannelModes, change: ModeChange): ChannelModes {
    if change.kind == PrefixKind || change.kind == ListKind then state
    else if !change.add then ChannelModes(state.flags - {change.mode}, state.params - {change.mode})
    else
      ChannelModes(
        state.flags + {change.mode},
        if change.parameter.Some? then state.params[change.mode := change.parameter.value] else state.params)
  }

  function ApplyModes(state: ChannelModes, changes: seq<ModeChange>): ChannelModes
    decreases |changes|
  {
    if changes == [] then state else ApplyModes(ApplyOne(state, changes[0]), changes[1..])
  }

  method ApplyChannelModes(state: ChannelModes, changes: seq<ModeChange>) returns (r: ChannelModes)
    ensures r == ApplyModes(state, changes)
  {
    var flags: set<Unit>, params: map<Unit, Text> := state.flags, state.params;
    for i := 0 to |changes|
      invariant ApplyModes(ChannelModes(flags, params), changes[i..]) == ApplyModes(state, changes)
    {
      var change := changes[i];
      assert changes[i..][1..] == changes[i + 1..];
      if change.kind == PrefixKind || change.kind == ListKind {
        continue;
      }
      if !change.add {
        flags, params := flags - {change.mode}, params - {change.mode};
        continue;
      }
      flags := flags + {change.mode};
      if change.parameter.Some? {
        params := params[change.mode := change.parameter.value];
      }
    }
    r := ChannelModes(flags, params);
  }

  lemma {:induction false} ApplyAppend(state: ChannelModes, first: seq<ModeChange>, second: seq<ModeChange>)
    ensures ApplyModes(state, first + second) == ApplyModes(ApplyModes(state, first), second)
    decreases |first|
  {
    if first == [] {
      assert first + second == second;
    } else {
      assert (first + second)[1..] == first[1..] + second;
      ApplyAppend(ApplyOne(state, first[0]), first[1..], second);
    }
  }

  /** The channel modes after receiving the commands one by one. */
  function ApplyCommands(state: ChannelModes, commands: seq<ModeCommand>, support: Support): ChannelModes
    decreases |commands|
  {
    if commands == [] then state
    else ApplyCommands(ApplyModes(state, ParseCommand(commands[0], support).changes), commands[1..], support)
  }

  lemma {:induction false} ApplyCommandsIsApplyAll(state: ChannelModes, commands: seq<ModeCommand>, support: Support)
    ensures ApplyCommands(state, commands, support) == ApplyModes(state, ParseAll(commands, support))
    decreases |commands|
  {
    if commands == [] {
    } else {
      var changes := ParseCommand(commands[0], support).changes;
      ApplyAppend(state, changes, ParseAll(commands[1..], support));
      ApplyCommandsIsApplyAll(ApplyModes(state, changes), commands[1..], support);
    }
  }

  /** Receiving the rendered commands leaves the channel as applying the list would. */
  lemma BatchingKeepsState(state: ChannelModes, changes: seq<ModeChange>, support: Support)
    requires AllCanonical(changes, support)
    ensures ApplyCommands(state, Rendering(changes, support), support) == ApplyModes(state, changes)
  {
    SerializingKeepsMeaning(changes, support);
    ApplyCommandsIsApplyAll(state, Rendering(changes, support), support);
  }

  /** A change that decides whether the channel has a mode; list and prefix modes are kept elsewhere. */
  predicate Decides(change: ModeChange, mode: Unit) {
    change.kind != PrefixKind && change.kind != ListKind && change.mode == mode
  }

  /**
    * The last change that decides the mode, or with `param` its parameter:
    * setting one without a parameter keeps the old.
    */
  function LastDeciding(changes: seq<ModeChange>, mode: Unit, param: bool): Option<ModeChange> {
    if changes == [] then None
    else if LastDeciding(changes[1..], mode, param).Some? then LastDeciding(changes[1..], mode, param)
    else if Decides(changes[0], mode) && (param && changes[0].add ==> changes[0].parameter.Some?) then Some(changes[0])
    else None
  }

  function ParamAt(state: ChannelModes, mode: Unit): Option<Text> {
    if mode in state.params then Some(state.params[mode]) else None
  }

  /** After any list of changes, each mode is as the last change about it left it. */
  lemma {:induction false} ModesFollowLastChange(state: ChannelModes, changes: seq<ModeChange>, mode: Unit)
    ensures var after := ApplyModes(state, changes);
            var last, lastParam := LastDeciding(changes, mode, false), LastDeciding(changes, mode, true);
            && (mode in after.flags <==> if last.Some? then last.value.add else mode in state.flags)
            && ParamAt(after, mode) == if lastParam.None? then ParamAt(state, mode)
                                       else if lastParam.value.add then lastParam.value.parameter else None
    decreases |changes|
  {
    if changes == [] {
    } else {
      ModesFollowLastChange(ApplyOne(state, changes[0]), changes[1..], mode);
    }
  }

  // ---------- Member prefixes ----------

  function PrefixOf(mode: Unit, prefixes: seq<PrefixEntry>): Option<Unit> {
    if prefixes == [] then None
    else if prefixes[0].mode == mode then Some(prefixes[0].prefix)
    else PrefixOf(mode, prefixes[1..])
  }

  /** The prefixes a member holds after one change. */
  function HeldAfter(held: set<Unit>, change: ModeChange, support: Support): set<Unit> {
    var prefix := PrefixOf(change.mode, support.prefixes);
    if change.kind != PrefixKind || prefix.None? then held
    else if change.add then held + {prefix.value}
    else held - {prefix.value}
  }

  function HeldAfterAll(held: set<Unit>, changes: seq<ModeChange>, support: Support): set<Unit>
    decreases |changes|
  {
    if changes == [] then held else HeldAfterAll(HeldAfter(held, changes[0], support), changes[1..], support)
  }

  /** Held prefixes in the server's order of privilege. */
  function Ordered(held: set<Unit>, prefixes: seq<PrefixEntry>): Text {
    if prefixes == [] then []
    else (if prefixes[0].prefix in held then [prefixes[0].prefix] else []) + Ordered(held, prefixes[1..])
  }

  function UnitsIn(s: Text): set<Unit> {
    set u | u in s
  }

  function ApplyPrefixes(current: Text, changes: seq<ModeChange>, support: Support): Text {
    Ordered(HeldAfterAll(UnitsIn(current), changes, support), support.prefixes)
  }

  method ApplyPrefixChanges(current: Text, changes: seq<ModeChange>, support: Support) returns (r: Text)
    ensures r == ApplyPrefixes(current, changes, support)
  {
    var held := UnitsIn(current);
    ghost var left := changes;
    for i := 0 to |changes|
      invariant left == changes[i..]
      invariant HeldAfterAll(held, left, support) == HeldAfterAll(UnitsIn(current), changes, support)
    {
      var change := changes[i];
      left := left[1..];
      if change.kind != PrefixKind {
        continue;
      }
      var prefix := PrefixOf(change.mode, support.prefixes);
      if prefix.None? {
        continue;
      }
      held := if change.add then held + {prefix.value} else held - {prefix.value};
    }
    r := PrefixText(held, support.prefixes);
  }

  method PrefixText(held: set<Unit>, prefixes: seq<PrefixEntry>) returns (r: Text)
    ensures r == Ordered(held, prefixes)
  {
    r := [];
    ghost var left := prefixes;
    for i := 0 to |prefixes|
      invariant left == prefixes[i..] && Ordered(held, prefixes) == r + Ordered(held, left)
    {
      var prefix := prefixes[i].prefix;
      left := left[1..];
      if prefix in held {
        Regroup(r, [prefix], Ordered(held, left));
        r := r + [prefix];
      }
    }
  }

  /** Which units the ordered text shows. */
  lemma {:induction false} OrderedShows(held: set<Unit>, prefixes: seq<PrefixEntry>, u: Unit)
    ensures u in Ordered(held, prefixes) <==> u in held && exists e :: e in prefixes && e.prefix == u
  {
    if prefixes == [] {
    } else {
      OrderedShows(held, prefixes[1..], u);
      assert prefixes == [prefixes[0]] + prefixes[1..];
    }
  }

  /** Only advertised prefixes matter to the ordered text. */
  lemma {:induction false} OrderedDependsOn(held: set<Unit>, other: set<Unit>, prefixes: seq<PrefixEntry>)
    requires forall e | e in prefixes :: e.prefix in held <==> e.prefix in other
    ensures Ordered(held, prefixes) == Ordered(other, prefixes)
  {
    if prefixes == [] {
    } else {
      assert prefixes[0] in prefixes;
      forall e | e in prefixes[1..] ensures e in prefixes {}
      OrderedDependsOn(held, other, prefixes[1..]);
    }
  }

  /** The last change that gives or takes the prefix `u`. */
  function LastGiving(changes: seq<ModeChange>, u: Unit, support: Support): Option<ModeChange> {
    if changes == [] then None
    else if LastGiving(changes[1..], u, support).Some? then LastGiving(changes[1..], u, support)
    else if changes[0].kind == PrefixKind && PrefixOf(changes[0].mode, support.prefixes) == Some(u)
    then Some(changes[0])
    else None
  }

  lemma {:induction false} HeldFollowsLastChange(held: set<Unit>, changes: seq<ModeChange>, u: Unit, support: Support)
    ensures var last := LastGiving(changes, u, support);
            u in HeldAfterAll(held, changes, support) <==> if last.Some? then last.value.add else u in held
    decreases |changes|
  {
    if changes == [] {
    } else {
      HeldFollowsLastChange(HeldAfter(held, changes[0], support), changes[1..], u, support);
    }
  }

  /** A member shows exactly the advertised prefixes that were last given to them, or held and never taken. */
  lemma PrefixesFollowLastChange(current: Text, changes: seq<ModeChange>, u: Unit, support: Support)
    ensures var last := LastGiving(changes, u, support);
            u in ApplyPrefixes(current, changes, support) <==>
              && (if last.Some? then last.value.add else u in current)
              && exists e :: e in support.prefixes && e.prefix == u
  {
    HeldFollowsLastChange(UnitsIn(current), changes, u, support);
    OrderedShows(HeldAfterAll(UnitsIn(current), changes, support), support.prefixes, u);
  }
}
