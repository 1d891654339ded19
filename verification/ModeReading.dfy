/**
  * MODE strings letter by letter: which sign, kind and parameter each letter
  * gets, and how few commands and signs a list of changes is written with.
  */
module ModeReading {
  import opened Units
  import opened ISupport
  import opened Modes

  // ---------- Reading ----------

  /** The sign in force at `i`: that of the nearest `+` or `-` before it, and `add` when there is none. */
  predicate SignAt(text: Text, i: nat, add: bool)
    requires i <= |text|
  {
    if i == 0 then add
    else if text[i - 1] == PLUS then true
    else if text[i - 1] == MINUS then false
    else SignAt(text, i - 1, add)
  }

  predicate IsLetter(u: Unit) {
    u != PLUS && u != MINUS
  }

  /** How many letters stand before `i`. */
  function Letters(text: Text, i: nat): nat
    requires i <= |text|
  {
    if i == 0 then 0 else Letters(text, i - 1) + if IsLetter(text[i - 1]) then 1 else 0
  }

  predicate IsPrefixMode(mode: Unit, support: Support) {
    exists e | e in support.prefixes :: e.mode == mode
  }

  /** What the server says of the letter decides its kind, member prefixes first. */
  predicate HasKind(mode: Unit, kind: ModeKind, support: Support) {
    var prefix, list := IsPrefixMode(mode, support), mode in support.listModes;
    var always, whenSet := mode in support.parameterModes, mode in support.parameterWhenSetModes;
    match kind
    case PrefixKind => prefix
    case ListKind => !prefix && list
    case ParameterKind => !prefix && !list && always
    case ParameterWhenSetKind => !prefix && !list && !always && whenSet
    case FlagKind => !prefix && !list && !always && !whenSet && mode in support.flagModes
    case UnknownKind => !prefix && !list && !always && !whenSet && mode !in support.flagModes
  }

  /** The letters that draw a parameter; some only when they are set. */
  predicate Draws(mode: Unit, add: bool, support: Support) {
    || IsPrefixMode(mode, support) || mode in support.listModes || mode in support.parameterModes
    || (add && mode in support.parameterWhenSetModes)
  }

  /** How many letters before `i` draw a parameter. */
  function Drawn(text: Text, i: nat, support: Support): nat
    requires i <= |text|
  {
    if i == 0 then 0
    else
      Drawn(text, i - 1, support)
      + if IsLetter(text[i - 1]) && Draws(text[i - 1], SignAt(text, i - 1, true), support) then 1 else 0
  }

  /** The parameters left once `n` letters have drawn theirs, as far as they go. */
  function After(params: seq<Text>, n: nat): seq<Text> {
    if n < |params| then params[n..] else []
  }

  /** The change the letter at `i` stands for. */
  ghost predicate IsChangeAt(change: ModeChange, text: Text, i: nat, params: seq<Text>, support: Support)
    requires i < |text|
  {
    var add, drawn := SignAt(text, i, true), Drawn(text, i, support);
    && change.add == add && change.mode == text[i] && HasKind(text[i], change.kind, support)
    && change.parameter == if Draws(text[i], add, support) && drawn < |params| then Some(params[drawn]) else None
  }

  lemma KindInWords(mode: Unit, add: bool, support: Support)
    ensures HasKind(mode, Classify(mode, support), support)
    ensures TakesParameter(Classify(mode, support), add) <==> Draws(mode, add, support)
  {
  }

  lemma {:induction false} DrawnGrows(text: Text, i: nat, j: nat, support: Support)
    requires i <= j <= |text|
    ensures Letters(text, i) <= Letters(text, j) && Drawn(text, i, support) <= Drawn(text, j, support)
  {
    if i < j {
      DrawnGrows(text, i, j - 1, support);
    }
  }

  /** The changes read from `i` on: one a letter, each as it should be. */
  ghost predicate ChangesFrom(changes: seq<ModeChange>, text: Text, i: nat, params: seq<Text>, support: Support)
    requires i <= |text|
  {
    && |changes| == Letters(text, |text|) - Letters(text, i)
    && forall j | i <= j < |text| && IsLetter(text[j]) ::
         && 0 <= Letters(text, j) - Letters(text, i) < |changes|
         && IsChangeAt(changes[Letters(text, j) - Letters(text, i)], text, j, params, support)
  }

  /** Whether parameters run out from `i` on, and which are never drawn. */
  predicate CountsFrom(r: ModeResult, text: Text, i: nat, params: seq<Text>, support: Support)
    requires i <= |text|
  {
    var end := Drawn(text, |text|, support);
    && (r.truncated <==> Drawn(text, i, support) < end && |params| < end)
    && r.unused == After(params, end)
  }

  function ReadAt(text: Text, i: nat, params: seq<Text>, support: Support): ModeResult
    requires i <= |text|
  {
    ParseFrom(text, i, SignAt(text, i, true), After(params, Drawn(text, i, support)), support)
  }

  lemma SignIsSkipped(text: Text, i: nat, params: seq<Text>, support: Support)
    requires i < |text| && !IsLetter(text[i])
    ensures ReadAt(text, i, params, support) == ReadAt(text, i + 1, params, support)
    ensures Letters(text, i + 1) == Letters(text, i) && Drawn(text, i + 1, support) == Drawn(text, i, support)
  {
    hide Classify;
    hide TakesParameter;
  }

  lemma LetterIsRead(text: Text, i: nat, params: seq<Text>, support: Support) returns (change: ModeChange)
    requires i < |text| && IsLetter(text[i])
    ensures IsChangeAt(change, text, i, params, support)
    ensures var r, rest := ReadAt(text, i, params, support), ReadAt(text, i + 1, params, support);
            var draws := Draws(text[i], SignAt(text, i, true), support);
            && r.changes == [change] + rest.changes && r.unused == rest.unused
            && (r.truncated <==> (draws && |params| <= Drawn(text, i, support)) || rest.truncated)
            && Drawn(text, i + 1, support) == Drawn(text, i, support) + if draws then 1 else 0
    ensures Letters(text, i + 1) == Letters(text, i) + 1
  {
    hide Classify;
    hide TakesParameter;
    hide HasKind;
    hide Draws;
    hide ParseFrom;
    var add, drawn := SignAt(text, i, true), Drawn(text, i, support);
    KindInWords(text[i], add, support);
    ParseLetter(text, i, add, After(params, drawn), support);
    change := ReadAt(text, i, params, support).changes[0];
    assert After(params, drawn) != [] ==> After(params, drawn)[1..] == After(params, drawn + 1);
    assert After(params, drawn) == [] ==> After(params, drawn + 1) == [];
  }

  lemma {:induction false} ChangesAreRead(text: Text, i: nat, params: seq<Text>, support: Support)
    requires i <= |text|
    ensures ChangesFrom(ReadAt(text, i, params, support).changes, text, i, params, support)
    decreases |text| - i
  {
    hide ReadAt;
    hide IsChangeAt;
    if i == |text| {
      NothingLeft(text, params, support);
    } else {
      ChangesAreRead(text, i + 1, params, support);
      if IsLetter(text[i]) {
        var change := LetterIsRead(text, i, params, support);
        forall j | i < j < |text| && IsLetter(text[j]) ensures Letters(text, j) >= Letters(text, i + 1) {
          DrawnGrows(text, i + 1, j, support);
        }
      } else {
        SignIsSkipped(text, i, params, support);
      }
    }
  }

  lemma NothingLeft(text: Text, params: seq<Text>, support: Support)
    ensures ReadAt(text, |text|, params, support)
         == ModeResult([], false, After(params, Drawn(text, |text|, support)))
  {
  }

  lemma {:induction false} CountsAreRead(text: Text, i: nat, params: seq<Text>, support: Support)
    requires i <= |text|
    ensures CountsFrom(ReadAt(text, i, params, support), text, i, params, support)
    decreases |text| - i
  {
    hide ReadAt;
    hide IsChangeAt;
    hide After;
    hide Drawn;
    if i == |text| {
      NothingLeft(text, params, support);
    } else {
      CountsAreRead(text, i + 1, params, support);
      DrawnGrows(text, i + 1, |text|, support);
      if IsLetter(text[i]) {
        var change := LetterIsRead(text, i, params, support);
      } else {
        SignIsSkipped(text, i, params, support);
      }
    }
  }

  /**
    * Every MODE string, against any parameters: one change for each letter, in
    * order, with the sign before it, the kind the server gives it and the next
    * parameter if it draws one and any is left. It is reported as cut short
    * exactly when more letters draw than there are parameters, and what no
    * letter draws is handed back.
    */
  lemma ModesAreRead(text: Text, params: seq<Text>, support: Support)
    ensures var r, draws := ParseModes(text, params, support), Drawn(text, |text|, support);
            && |r.changes| == Letters(text, |text|)
            && (forall i | 0 <= i < |text| && IsLetter(text[i]) ::
                  Letters(text, i) < |r.changes| && IsChangeAt(r.changes[Letters(text, i)], text, i, params, support))
            && (r.truncated <==> |params| < draws)
            && r.unused == if draws < |params| then params[draws..] else []
  {
    hide IsChangeAt;
    ChangesAreRead(text, 0, params, support);
    CountsAreRead(text, 0, params, support);
    assert After(params, 0) == params;
  }

  // ---------- Writing ----------

  /** How often the sign has to be written. */
  function Turns(batch: seq<ModeChange>, sign: Option<bool>): nat {
    if batch == [] then 0
    else (if sign == Some(batch[0].add) then 0 else 1) + Turns(batch[1..], Some(batch[0].add))
  }

  lemma {:induction false} StringLength(batch: seq<ModeChange>, sign: Option<bool>)
    ensures |ModeString(batch, sign)| == |batch| + Turns(batch, sign)
  {
    if batch == [] {
    } else {
      StringLength(batch[1..], Some(batch[0].add));
    }
  }

  /** A sign is written where it changes, and nowhere else. */
  lemma FewestSigns(batch: seq<ModeChange>)
    ensures |Rendered(batch).modes| == |batch| + Turns(batch, None)
  {
    StringLength(batch, None);
  }

  /** A parameter on a mode that takes none makes no difference. */
  function Needed(change: ModeChange): ModeChange {
    var kind := change.kind;
    var takes := kind in {ListKind, ParameterKind, PrefixKind} || (kind.ParameterWhenSetKind? && change.add);
    if takes then change else change.(parameter := None)
  }

  function AllNeeded(batch: seq<ModeChange>): (r: seq<ModeChange>)
    ensures |r| == |batch| && forall i | 0 <= i < |batch| :: r[i] == Needed(batch[i])
  {
    seq(|batch|, i requires 0 <= i < |batch| => Needed(batch[i]))
  }

  lemma {:induction false} OnlyNeededIsSent(batch: seq<ModeChange>, sign: Option<bool>)
    ensures ModeString(batch, sign) == ModeString(AllNeeded(batch), sign)
    ensures ModeParams(batch) == ModeParams(AllNeeded(batch))
  {
    if batch == [] {
    } else {
      assert AllNeeded(batch)[1..] == AllNeeded(batch[1..]);
      OnlyNeededIsSent(batch[1..], Some(batch[0].add));
    }
  }

  lemma {:induction false} CommandCount(changes: seq<ModeChange>, limit: nat)
    requires limit >= 1
    ensures changes != [] ==> (|Commands(changes, limit)| - 1) * limit < |changes| <= |Commands(changes, limit)| * limit
    decreases |changes|
  {
    hide Rendered;
    if changes == [] {
    } else {
      CommandsTurn(changes, limit);
      if |changes| <= limit {
        NoCommands(limit);
        assert changes[|changes|..] == [];
      } else {
        CommandCount(changes[limit..], limit);
      }
    }
  }

  /**
    * As few commands as the server's limit allows: none for no changes, one when
    * it states no limit, and otherwise every command but the last is full.
    */
  lemma FewestCommands(changes: seq<ModeChange>, support: Support)
    ensures var n := |Rendering(changes, support)|;
            && (n == 0 <==> changes == [])
            && (support.modesPerCommand.None? ==> n <= 1)
            && (support.modesPerCommand.Some? ==>
                  var limit := if support.modesPerCommand.value == 0 then 1 else support.modesPerCommand.value;
                  changes != [] ==> (n - 1) * limit < |changes| <= n * limit)
  {
    hide Rendered;
    CommandCount(changes, Limit(|changes|, support));
    if support.modesPerCommand.None? && changes != [] {
      CommandsTurn(changes, |changes|);
      NoCommands(|changes|);
      assert changes[|changes|..] == [];
    }
  }
}
