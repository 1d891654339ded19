/** Casemapping: which names denote the same nick or channel. */
module CaseFolding {
  import opened Units
  import opened ISupport

  function FoldUnit(u: Unit, mapping: CaseMapping): Unit {
    var last := match mapping case AsciiCase => 0x5a case Rfc1459 => 0x5e case Rfc1459Strict => 0x5d;
    if 0x41 <= u <= last then u + 0x20 else u
  }

  function Fold(s: Text, mapping: CaseMapping): (t: Text)
    ensures |t| == |s| && forall i | 0 <= i < |s| :: t[i] == FoldUnit(s[i], mapping)
  {
    seq(|s|, i requires 0 <= i < |s| => FoldUnit(s[i], mapping))
  }

  method FoldText(value: Text, mapping: CaseMapping) returns (out: Text)
    ensures out == Fold(value, mapping)
  {
    out := [];
    for i := 0 to |value|
      invariant |out| == i && forall k | 0 <= k < i :: out[k] == FoldUnit(value[k], mapping)
    {
      var code := value[i];
      var extra := if mapping == Rfc1459 then 0x5e else 0x5d;
      if 0x41 <= code <= 0x5a {
        out := out + [code + 0x20];
      } else if mapping != AsciiCase && 0x5b <= code <= extra {
        out := out + [code + 0x20];
      } else {
        out := out + [code];
      }
    }
  }

  predicate SameTarget(a: Text, b: Text, mapping: CaseMapping) {
    Fold(a, mapping) == Fold(b, mapping)
  }

  /** Folding is a normal form: folding again changes nothing. */
  lemma FoldIdempotent(s: Text, mapping: CaseMapping)
    ensures Fold(Fold(s, mapping), mapping) == Fold(s, mapping)
  {
    forall i | 0 <= i < |s| ensures FoldUnit(FoldUnit(s[i], mapping), mapping) == FoldUnit(s[i], mapping) {
    }
  }

  /** The letters every casemapping folds. */
  lemma LettersFold(mapping: CaseMapping)
    ensures Fold(Ascii("ABCDEFGHIJKLM"), mapping) == Ascii("abcdefghijklm")
    ensures Fold(Ascii("NOPQRSTUVWXYZ"), mapping) == Ascii("nopqrstuvwxyz")
  {
  }

  /** The marks that only some fold - brackets, backslash and caret - and that nothing else folds. */
  lemma MarksFold(mapping: CaseMapping)
    ensures Fold(Ascii("[\\]"), mapping) == if mapping.AsciiCase? then Ascii("[\\]") else Ascii("{|}")
    ensures Fold(Ascii("^"), mapping) == if mapping.Rfc1459? then Ascii("~") else Ascii("^")
    ensures forall u: Unit | u < 0x41 || u > 0x5e :: FoldUnit(u, mapping) == u
  {
  }
}

/** Member lists, keyed by folded nick. */
module Members {
  import opened Units
  import opened ISupport
  import opened CaseFolding

  datatype Member = Member(
    nick: Text, user: Text, host: Text, account: Option<Text>, realname: Text,
    away: bool, bot: bool, prefixes: Text)

  type MemberMap = map<Text, Member>

  function EmptyMember(nick: Text): Member {
    Member(nick, [], [], None, [], false, false, [])
  }

  /** A partial update: a field that is None is left as it was. */
  datatype Update = Update(
    nick: Option<Text>, user: Option<Text>, host: Option<Text>, account: Option<Option<Text>>,
    realname: Option<Text>, away: Option<bool>, bot: Option<bool>, prefixes: Option<Text>)

  const NO_UPDATE := Update(None, None, None, None, None, None, None, None)

  function Or<T>(value: Option<T>, otherwise: T): T {
    if value.Some? then value.value else otherwise
  }

  function Updated(existing: Member, update: Update): Member {
    Member(
      Or(update.nick, existing.nick), Or(update.user, existing.user), Or(update.host, existing.host),
      Or(update.account, existing.account), Or(update.realname, existing.realname),
      Or(update.away, existing.away), Or(update.bot, existing.bot), Or(update.prefixes, existing.prefixes))
  }

  function Existing(members: MemberMap, key: Text, nick: Text): Member {
    if key in members then members[key] else EmptyMember(nick)
  }

  function Upsert(members: MemberMap, nick: Text, mapping: CaseMapping, update: Update): MemberMap {
    var key := Fold(nick, mapping);
    members[key := Updated(Existing(members, key, nick), update)]
  }

  function Remove(members: MemberMap, nick: Text, mapping: CaseMapping): MemberMap {
    members - {Fold(nick, mapping)}
  }

  function Rename(members: MemberMap, from: Text, to: Text, mapping: CaseMapping): MemberMap {
    var key := Fold(from, mapping);
    if key !in members then members
    else (members - {key})[Fold(to, mapping) := members[key].(nick := to)]
  }

  predicate IsMember(members: MemberMap, nick: Text, mapping: CaseMapping) {
    Fold(nick, mapping) in members
  }

  /** Every key is the fold of its member's nick. */
  predicate Keyed(members: MemberMap, mapping: CaseMapping) {
    forall k | k in members :: k == Fold(members[k].nick, mapping)
  }

  /** Every member operation keeps the keys right, provided a nick given in an update is the one named. */
  lemma OperationsKeepKeys(members: MemberMap, nick: Text, to: Text, mapping: CaseMapping, update: Update)
    requires Keyed(members, mapping)
    requires update.nick.Some? ==> SameTarget(update.nick.value, nick, mapping)
    ensures Keyed(Upsert(members, nick, mapping, update), mapping)
    ensures Keyed(Remove(members, nick, mapping), mapping)
    ensures Keyed(Rename(members, nick, to, mapping), mapping)
  {
  }

  /** A rename moves the person and nothing about them: account, away state and prefixes carry over. */
  lemma RenameCarriesOver(members: MemberMap, from: Text, to: Text, mapping: CaseMapping)
    requires IsMember(members, from, mapping)
    ensures var after := Rename(members, from, to, mapping);
            && after[Fold(to, mapping)] == members[Fold(from, mapping)].(nick := to)
            && (!SameTarget(from, to, mapping) ==> !IsMember(after, from, mapping))
            && forall k | k in members && k != Fold(from, mapping) && k != Fold(to, mapping) ::
                 k in after && after[k] == members[k]
  {
  }
}
