/** The command line is scanned three times: early for --config, in full for the
    flags, and once more to remove the flags. Each scan has its own tables; all
    three are compared with one reference reading of the argument list. */
module Flags {
  import opened Wrappers
  import opened Sequences

  /** One argument: a constructor per global flag spelling, the two boolean words,
      and every other word. */
  datatype Arg =
    | Json | Headed | Debug | IgnoreHttpsErrors | AllowFileAccess | AutoConnect | Annotate
    | ContentBoundaries | ConfirmInteractive | NoAutoDialog
    | ShortVerbose | Verbose | ShortQuiet | Quiet
    | Offline | Quick | Fix
    | Session | Headers | ExecutablePath | Cdp | Extension | InitScript | Enable | Profile | State
    | Proxy | ProxyBypass | Args | UserAgent | ShortProvider | Provider | Device | SessionName
    | ColorScheme | DownloadPath | MaxOutput | AllowedDomains | ActionPolicy | ConfirmActions
    | Engine | ScreenshotDir | ScreenshotQuality | ScreenshotFormat | IdleTimeout | Model
    | Config
    | True | False
    | Word(text: string)

  // ----- the three tables -------------------------------------------------

  /** extract_config_path's FLAGS_WITH_VALUE. */
  predicate InEarlyTable(a: Arg) {
    || a.Session? || a.Headers? || a.ExecutablePath? || a.Cdp? || a.Extension? || a.InitScript?
    || a.Enable? || a.Profile? || a.State? || a.Proxy? || a.ProxyBypass? || a.Args?
    || a.UserAgent? || a.ShortProvider? || a.Provider? || a.Device? || a.SessionName? || a.ColorScheme?
    || a.DownloadPath? || a.MaxOutput? || a.AllowedDomains? || a.ActionPolicy? || a.ConfirmActions? || a.Engine?
    || a.ScreenshotDir? || a.ScreenshotQuality? || a.ScreenshotFormat? || a.IdleTimeout? || a.Model?
  }

  /** clean_args' GLOBAL_BOOL_FLAGS. */
  predicate InBoolTable(a: Arg) {
    || a.Json? || a.Headed? || a.Debug? || a.IgnoreHttpsErrors? || a.AllowFileAccess? || a.AutoConnect?
    || a.Annotate? || a.ContentBoundaries? || a.ConfirmInteractive? || a.NoAutoDialog? || a.ShortVerbose? || a.Verbose?
    || a.ShortQuiet? || a.Quiet? || a.Offline? || a.Quick? || a.Fix?
  }

  /** clean_args' GLOBAL_FLAGS_WITH_VALUE. */
  predicate InValueTable(a: Arg) {
    || a.Session? || a.Headers? || a.ExecutablePath? || a.Cdp? || a.Extension? || a.InitScript?
    || a.Enable? || a.Profile? || a.State? || a.Proxy? || a.ProxyBypass? || a.Args?
    || a.UserAgent? || a.ShortProvider? || a.Provider? || a.Device? || a.SessionName? || a.ColorScheme?
    || a.DownloadPath? || a.MaxOutput? || a.AllowedDomains? || a.ActionPolicy? || a.ConfirmActions? || a.Config?
    || a.Engine? || a.ScreenshotDir? || a.ScreenshotQuality? || a.ScreenshotFormat? || a.IdleTimeout? || a.Model?
  }

  datatype Kind = Bool | Mark | Value | Skip | Inert | Other

  /** The arms of parse_flags' match. */
  function Arm(a: Arg): Kind {
    match a
    case Json | Headed | Debug | IgnoreHttpsErrors | AllowFileAccess => Bool
    case AutoConnect | Annotate | ContentBoundaries | ConfirmInteractive | NoAutoDialog => Bool
    case Session | IdleTimeout | Headers | ExecutablePath | Extension | InitScript => Value
    case Enable | Cdp | Profile | State | Proxy | ProxyBypass => Value
    case Args | UserAgent | ShortProvider | Provider | Device | SessionName => Value
    case ColorScheme | DownloadPath | MaxOutput | AllowedDomains | ActionPolicy | ConfirmActions => Value
    case Engine | ScreenshotDir | ScreenshotQuality | ScreenshotFormat | Model => Value
    case ShortVerbose | Verbose | ShortQuiet | Quiet => Mark
    case Config => Skip
    case _ => Other
  }

  predicate IsDoctorFlag(a: Arg) { a == Offline || a == Quick || a == Fix }

  predicate IsBoolWord(a: Arg) { a == True || a == False }

  /** The early scan's table is parse_flags' value arms. */
  lemma EarlyTableAgrees(a: Arg)
    ensures InEarlyTable(a) <==> Arm(a).Value?
  {
  }

  /** clean_args' value table is parse_flags' value arms and --config. */
  lemma ValueTableAgrees(a: Arg)
    ensures InValueTable(a) <==> Arm(a).Value? || Arm(a).Skip?
  {
  }

  /** clean_args' boolean table is parse_flags' boolean and mark arms, and the
      three doctor flags that parse_flags ignores. */
  lemma BoolTableAgrees(a: Arg)
    ensures InBoolTable(a) <==> Arm(a).Bool? || Arm(a).Mark? || IsDoctorFlag(a)
  {
  }

  // ----- the reference reading --------------------------------------------

  /** An argument and its kind: parse_flags' arm, but the doctor flags apart. */
  datatype Item = Item(kind: Kind, arg: Arg)

  function Classified(a: Arg): Item {
    Item(if IsDoctorFlag(a) then Inert else Arm(a), a)
  }

  function Items(args: seq<Arg>): (items: seq<Item>)
    ensures |items| == |args| && forall i :: 0 <= i < |args| ==> items[i] == Classified(args[i])
  {
    seq(|args|, i requires 0 <= i < |args| => Classified(args[i]))
  }

  /** What the reading needs to know of a classification. */
  predicate Sound(items: seq<Item>) {
    forall i :: 0 <= i < |items| ==>
      && (items[i].arg.Config? <==> items[i].kind.Skip?)
      && (IsBoolWord(items[i].arg) ==> items[i].kind.Other?)
  }

  lemma ClassifiedIsSound(a: Arg)
    ensures a.Config? <==> Classified(a).kind.Skip?
    ensures IsBoolWord(a) ==> Classified(a).kind.Other?
    ensures InEarlyTable(a) <==> Classified(a).kind.Value?
    ensures InValueTable(a) <==> TakesValue(Classified(a))
    ensures InBoolTable(a) <==> IsSwitch(Classified(a))
  {
    EarlyTableAgrees(a);
    ValueTableAgrees(a);
    BoolTableAgrees(a);
  }

  lemma ItemsAreSound(args: seq<Arg>)
    ensures Sound(Items(args))
  {
    forall i | 0 <= i < |args|
      ensures Items(args)[i].arg.Config? <==> Items(args)[i].kind.Skip?
      ensures IsBoolWord(Items(args)[i].arg) ==> Items(args)[i].kind.Other?
    {
      ClassifiedIsSound(args[i]);
    }
  }

  datatype Role = Head | Taken | Plain

  predicate TakesValue(x: Item) { x.kind.Value? || x.kind.Skip? }

  predicate IsSwitch(x: Item) { x.kind.Bool? || x.kind.Mark? || x.kind.Inert? }

  predicate IsGlobal(x: Item) { !x.kind.Other? }

  /** How many arguments the first one claims, itself included. */
  function Reach(items: seq<Item>): (n: nat)
    requires items != []
    ensures 1 <= n <= 2 && n <= |items|
  {
    if |items| > 1 && (TakesValue(items[0]) || (IsSwitch(items[0]) && IsBoolWord(items[1].arg))) then 2 else 1
  }

  /** The role of every argument, read from the left. */
  function Roles(items: seq<Item>): (r: seq<Role>)
    ensures |r| == |items|
    decreases |items|
  {
    if items == [] then []
    else
      [if IsGlobal(items[0]) then Head else Plain]
        + (if Reach(items) == 2 then [Taken] + Roles(items[2..]) else Roles(items[1..]))
  }

  // ----- what each scan should return -------------------------------------

  /** The arguments that are neither flags nor taken by one. */
  function Kept(items: seq<Item>, roles: seq<Role>): seq<Item>
    requires |roles| == |items|
  {
    if items == [] then []
    else (if roles[0].Plain? then [items[0]] else []) + Kept(items[1..], roles[1..])
  }

  datatype Setting = Given(flag: Arg, text: Arg) | Switched(flag: Arg, on: bool)

  /** The setting a flag at the front makes, if any. */
  function SettingOf(items: seq<Item>): seq<Setting>
    requires items != []
  {
    match items[0].kind
    case Value => if |items| > 1 then [Given(items[0].arg, items[1].arg)] else []
    case Bool => [Switched(items[0].arg, !(|items| > 1 && items[1].arg == False))]
    case Mark => [Switched(items[0].arg, true)]
    case _ => []
  }

  /** The settings of all heads, in order. */
  function Settings(items: seq<Item>, roles: seq<Role>): seq<Setting>
    requires |roles| == |items|
  {
    if items == [] then []
    else (if roles[0].Head? then SettingOf(items) else []) + Settings(items[1..], roles[1..])
  }

  function Meaning(items: seq<Item>): seq<Setting> { Settings(items, Roles(items)) }

  function Cleaned(items: seq<Item>): seq<Item> { Kept(items, Roles(items)) }

  predicate ConfigHead(items: seq<Item>, roles: seq<Role>, i: nat)
    requires |roles| == |items|
  {
    i < |items| && items[i].arg.Config? && roles[i].Head?
  }

  predicate NoConfig(items: seq<Item>, upTo: nat) {
    forall j :: 0 <= j < upTo <= |items| ==> !ConfigHead(items, Roles(items), j)
  }

  // ----- unfolding the reference ------------------------------------------

  lemma RolesUnfold(items: seq<Item>)
    requires items != []
    ensures Roles(items)[Reach(items)..] == Roles(items[Reach(items)..])
    ensures Roles(items)[0] == if IsGlobal(items[0]) then Head else Plain
    ensures Reach(items) == 2 ==> Roles(items)[1] == Taken
  {
  }

  lemma TakenIsSkipped(items: seq<Item>, roles: seq<Role>)
    requires |roles| == |items| && items != [] && roles[0].Taken?
    ensures Settings(items, roles) == Settings(items[1..], roles[1..])
    ensures Kept(items, roles) == Kept(items[1..], roles[1..])
  {
  }

  /** A role list that starts with one head and what it takes. */
  lemma SettingsUnfold(items: seq<Item>, roles: seq<Role>, n: nat)
    requires |roles| == |items| && 1 <= n <= 2 && n <= |items| && !roles[0].Taken? && (n == 2 ==> roles[1].Taken?)
    ensures Settings(items, roles)
         == (if roles[0].Head? then SettingOf(items) else []) + Settings(items[n..], roles[n..])
    ensures Kept(items, roles) == (if roles[0].Plain? then [items[0]] else []) + Kept(items[n..], roles[n..])
  {
    if n == 2 {
      TakenIsSkipped(items[1..], roles[1..]);
      Suffix(items, 1, 1);
      Suffix(roles, 1, 1);
    }
  }

  /** One head and what it takes, at a time. */
  lemma MeaningUnfolds(items: seq<Item>)
    requires items != []
    ensures Meaning(items) == SettingOf(items) + Meaning(items[Reach(items)..])
    ensures Cleaned(items) == (if IsGlobal(items[0]) then [] else [items[0]]) + Cleaned(items[Reach(items)..])
  {
    RolesUnfold(items);
    SettingsUnfold(items, Roles(items), Reach(items));
    assert !IsGlobal(items[0]) ==> SettingOf(items) == [];
  }

  /** A boolean word read on its own is inert. */
  lemma BoolWordIsInert(items: seq<Item>)
    requires Sound(items) && items != [] && IsBoolWord(items[0].arg)
    ensures Meaning(items) == Meaning(items[1..])
  {
    MeaningUnfolds(items);
    assert [] + Meaning(items[1..]) == Meaning(items[1..]);
  }

  // ----- the main scan ----------------------------------------------------

  /** How far parse_flags moves from the front. */
  function Stride(items: seq<Item>): nat
    requires items != []
  {
    match items[0].kind
    case Bool => if |items| > 1 && IsBoolWord(items[1].arg) then 2 else 1
    case Value => if |items| > 1 then 2 else 1
    case Skip => 2
    case _ => 1
  }

  /** parse_flags strides further or less far than the reference reaches only over
      inert words, so no setting is lost or invented. */
  lemma StrideKeepsMeaning(items: seq<Item>)
    requires Sound(items) && items != []
    ensures Stride(items) > |items| ==> Meaning(items) == SettingOf(items)
    ensures Stride(items) <= |items| ==> Meaning(items) == SettingOf(items) + Meaning(items[Stride(items)..])
  {
    MeaningUnfolds(items);
    if Stride(items) > |items| {
      assert Meaning([]) == [] && items[1..] == [];
    } else if Stride(items) != Reach(items) {
      assert Reach(items) == 2 && Stride(items) == 1;
      BoolWordIsInert(items[1..]);
      Suffix(items, 1, 1);
    }
  }

  /** One iteration of parse_flags' loop. */
  method ParseOne(args: seq<Arg>, i: nat) returns (made: seq<Setting>, next: nat)
    requires i < |args|
    ensures made == SettingOf(Items(args)[i..]) && next == i + Stride(Items(args)[i..])
  {
    made, next := [], i + 1;
    var hasNext := i + 1 < |args|;
    ghost var rest := Items(args)[i..];
    assert rest[0] == Classified(args[i]) && (hasNext ==> rest[1] == Classified(args[i + 1]));
    match Arm(args[i]) {
      case Bool =>
        made := [Switched(args[i], !(hasNext && args[i + 1] == False))];
        if hasNext && IsBoolWord(args[i + 1]) { next := next + 1; }
      case Value =>
        if hasNext {
          made := [Given(args[i], args[i + 1])];
          next := next + 1;
        }
      case Mark => made := [Switched(args[i], true)];
      case Skip => next := next + 1;
      case _ =>
    }
  }

  /** parse_flags' scanning loop. */
  method ParseFlags(args: seq<Arg>) returns (settings: seq<Setting>)
    ensures settings == Meaning(Items(args))
  {
    settings := [];
    ghost var items := Items(args);
    ItemsAreSound(args);
    var i := 0;
    assert items[0..] == items;
    while i < |args|
      invariant i <= |args| ==> settings + Meaning(items[i..]) == Meaning(items)
      invariant i > |args| ==> settings == Meaning(items)
      decreases |args| - i
    {
      StrideKeepsMeaning(items[i..]);
      var made, next := ParseOne(args, i);
      if next <= |args| {
        Suffix(items, i, next - i);
        Regroup(settings, made, Meaning(items[next..]));
      }
      settings := settings + made;
      i := next;
    }
  }

  // ----- the third scan ---------------------------------------------------

  /** How far clean_args moves, and what it keeps. */
  lemma CleanedUnfolds(items: seq<Item>)
    requires items != []
    ensures TakesValue(items[0]) ==> Cleaned(items) == if |items| > 1 then Cleaned(items[2..]) else []
    ensures IsSwitch(items[0]) ==>
              Cleaned(items) == Cleaned(items[if |items| > 1 && IsBoolWord(items[1].arg) then 2 else 1..])
    ensures !IsGlobal(items[0]) ==> Cleaned(items) == [items[0]] + Cleaned(items[1..])
  {
    MeaningUnfolds(items);
  }

  /** clean_args. */
  method CleanArgs(args: seq<Arg>) returns (kept: seq<Arg>)
    ensures Items(kept) == Cleaned(Items(args))
  {
    kept := [];
    ghost var items := Items(args);
    var skipNext := false;
    var i := 0;
    assert items[0..] == items;
    while i < |args|
      invariant 0 <= i <= |args|
      invariant !skipNext ==> Items(kept) + Cleaned(items[i..]) == Cleaned(items)
      invariant skipNext ==> Items(kept) + (if i < |args| then Cleaned(items[i + 1..]) else []) == Cleaned(items)
      decreases |args| - i
    {
      var arg := args[i];
      if skipNext {
        skipNext := false;
        i := i + 1;
        continue;
      }
      ClassifiedIsSound(arg);
      CleanedUnfolds(items[i..]);
      Suffix(items, i, 1);
      if i + 1 < |args| { Suffix(items, i, 2); }
      if InValueTable(arg) {
        skipNext := true;
        i := i + 1;
        continue;
      }
      if InBoolTable(arg) {
        if i + 1 < |args| && IsBoolWord(args[i + 1]) {
          i := i + 1;
        }
        i := i + 1;
        continue;
      }
      KeepOne(kept, arg, Cleaned(items[i + 1..]));
      kept := kept + [arg];
      i := i + 1;
    }
  }

  lemma KeepOne(kept: seq<Arg>, arg: Arg, rest: seq<Item>)
    ensures Items(kept + [arg]) + rest == Items(kept) + ([Classified(arg)] + rest)
  {
    assert Items(kept + [arg]) == Items(kept) + [Classified(arg)];
    Regroup(Items(kept), [Classified(arg)], rest);
  }

  // ----- the early scan ---------------------------------------------------

  /** Where the early scan stands: no --config before `i`, and the reading goes on
      from `i`, or from the next argument when `i` is a word a switch has taken. */
  predicate SettledUpTo(items: seq<Item>, i: nat) {
    && i <= |items|
    && NoConfig(items, i)
    && (SameRest(items, i) || (i < |items| && TakenWord(items, i) && SameRest(items, i + 1)))
  }

  predicate TakenWord(items: seq<Item>, i: nat)
    requires i < |items|
  {
    IsBoolWord(items[i].arg) && Roles(items)[i].Taken?
  }

  predicate SameRest(items: seq<Item>, i: nat)
    requires i <= |items|
  {
    Roles(items)[i..] == Roles(items[i..])
  }

  /** Moving past one head and what it takes. */
  lemma RolesAdvance(items: seq<Item>, i: nat) returns (n: nat)
    requires i < |items| && SameRest(items, i)
    ensures n == Reach(items[i..]) && i + n <= |items| && SameRest(items, i + n)
    ensures Roles(items)[i].Head? <==> IsGlobal(items[i])
    ensures n == 2 ==> Roles(items)[i + 1].Taken?
  {
    n := RolesAt(items, i);
    var roles, tail, next := Roles(items), Roles(items[i..]), Roles(items[i + n..]);
    TailAdvances(roles, tail, next, i, n);
  }

  /** The reading of a suffix, past its first head. */
  lemma RolesAt(items: seq<Item>, i: nat) returns (n: nat)
    requires i < |items|
    ensures n == Reach(items[i..]) && i + n <= |items| && Roles(items[i..])[n..] == Roles(items[i + n..])
    ensures Roles(items[i..])[0].Head? <==> IsGlobal(items[i])
    ensures n == 2 ==> Roles(items[i..])[1].Taken?
  {
    var rest := items[i..];
    n := Reach(rest);
    RolesUnfold(rest);
    Suffix(items, i, n);
    assert rest[0] == items[i];
  }

  lemma TailAdvances(roles: seq<Role>, tail: seq<Role>, next: seq<Role>, i: nat, n: nat)
    requires i < |roles| && roles[i..] == tail && n <= |tail| && tail[n..] == next
    ensures roles[i + n..] == next && roles[i] == tail[0] && (|tail| > 1 ==> roles[i + 1] == tail[1])
  {
    Suffix(roles, i, n);
  }

  /** `i` is the first --config in head position, and `path` the argument it takes. */
  predicate ConfigAt(items: seq<Item>, i: nat, path: Option<Arg>) {
    && ConfigHead(items, Roles(items), i) && NoConfig(items, i)
    && path == (if i + 1 < |items| then Some(items[i + 1].arg) else None)
    && (i + 1 < |items| ==> Roles(items)[i + 1].Taken?)
  }

  /** The early scan at --config. */
  lemma EarlyFinds(items: seq<Item>, i: nat)
    requires Sound(items) && i < |items| && SettledUpTo(items, i) && items[i].arg.Config?
    ensures ConfigAt(items, i, if i + 1 < |items| then Some(items[i + 1].arg) else None)
  {
    var _ := RolesAdvance(items, i);
    assert items[i..][0] == items[i];
  }

  lemma NoConfigGrows(items: seq<Item>, i: nat)
    requires i < |items| && NoConfig(items, i) && !ConfigHead(items, Roles(items), i)
    ensures NoConfig(items, i + 1)
  {
  }

  /** The early scan at a flag that takes a value. */
  lemma EarlySkipsValue(items: seq<Item>, i: nat)
    requires Sound(items) && i < |items| && SettledUpTo(items, i) && items[i].kind.Value?
    ensures if i + 2 <= |items| then SettledUpTo(items, i + 2) else NoConfig(items, |items|)
  {
    assert SameRest(items, i);
    var _ := RolesAdvance(items, i);
    assert items[i..][0] == items[i];
    NoConfigGrows(items, i);
    if i + 1 < |items| { NoConfigGrows(items, i + 1); }
  }

  /** The early scan at anything else. */
  lemma EarlyAdvances(items: seq<Item>, i: nat)
    requires Sound(items) && i < |items| && SettledUpTo(items, i) && !items[i].arg.Config? && !items[i].kind.Value?
    ensures SettledUpTo(items, i + 1)
  {
    NoConfigGrows(items, i);
    if SameRest(items, i) {
      var _ := RolesAdvance(items, i);
      assert items[i..][0] == items[i];
      assert i + 1 < |items| ==> items[i..][1] == items[i + 1];
    }
  }

  lemma SettledAtStart(items: seq<Item>)
    ensures SettledUpTo(items, 0)
  {
    assert Roles(items)[0..] == Roles(items) && items[0..] == items;
  }

  lemma SettledAtEnd(items: seq<Item>, i: nat)
    requires i >= |items| && if i <= |items| then SettledUpTo(items, i) else NoConfig(items, |items|)
    ensures NoConfig(items, |items|)
  {
  }

  /** extract_config_path: Some(Some(path)), Some(None) when --config is last,
      None when there is no --config. The path it finds is an argument that the
      full reading gives to --config. */
  method ExtractConfigPath(args: seq<Arg>) returns (found: Option<Option<Arg>>)
    ensures found.None? ==> NoConfig(Items(args), |args|)
    ensures found.Some? ==> exists i: nat :: ConfigAt(Items(args), i, found.value)
  {
    ghost var items := Items(args);
    ItemsAreSound(args);
    var i: nat := 0;
    SettledAtStart(items);
    while i < |args|
      invariant if i <= |args| then SettledUpTo(items, i) else NoConfig(items, |args|)
      decreases |args| - i
    {
      ClassifiedIsSound(args[i]);
      if args[i].Config? {
        EarlyFinds(items, i);
        return Some(if i + 1 < |args| then Some(args[i + 1]) else None);
      }
      if InEarlyTable(args[i]) {
        EarlySkipsValue(items, i);
        i := i + 1;
      } else {
        EarlyAdvances(items, i);
      }
      i := i + 1;
    }
    SettledAtEnd(items, i);
    return None;
  }

  // ----- writing settings as arguments ------------------------------------

  predicate IsVerbosity(a: Arg) { a.ShortVerbose? || a.Verbose? || a.ShortQuiet? || a.Quiet? }

  predicate IsBooleanFlag(a: Arg) { InBoolTable(a) && !IsVerbosity(a) && !IsDoctorFlag(a) }

  /** What a user may want to say. */
  datatype Wish =
    | TurnOn(flag: Arg, explicit: bool)
    | TurnOff(flag: Arg)
    | Loudness(flag: Arg)
    | Give(flag: Arg, text: Arg)
    | UseConfig(path: Arg)
    | ForDoctor(flag: Arg)
    | Say(word: Arg)

  predicate CanWish(w: Wish) {
    match w
    case TurnOn(flag, _) => IsBooleanFlag(flag)
    case TurnOff(flag) => IsBooleanFlag(flag)
    case Loudness(flag) => IsVerbosity(flag)
    case Give(flag, _) => InEarlyTable(flag)
    case UseConfig(_) => true
    case ForDoctor(flag) => IsDoctorFlag(flag)
    case Say(word) => !InBoolTable(word) && !InValueTable(word)
  }

  /** How it is written on the command line. */
  function Spelled(w: Wish): seq<Arg> {
    match w
    case TurnOn(flag, explicit) => if explicit then [flag, True] else [flag]
    case TurnOff(flag) => [flag, False]
    case Loudness(flag) => [flag]
    case Give(flag, text) => [flag, text]
    case UseConfig(path) => [Config, path]
    case ForDoctor(flag) => [flag]
    case Say(word) => [word]
  }

  /** What it sets. */
  function Wanted(w: Wish): seq<Setting> {
    match w
    case TurnOn(flag, _) => [Switched(flag, true)]
    case TurnOff(flag) => [Switched(flag, false)]
    case Loudness(flag) => [Switched(flag, true)]
    case Give(flag, text) => [Given(flag, text)]
    case _ => []
  }

  function SpelledAll(wishes: seq<Wish>): seq<Arg> {
    if wishes == [] then [] else Spelled(wishes[0]) + SpelledAll(wishes[1..])
  }

  function WantedAll(wishes: seq<Wish>): seq<Setting> {
    if wishes == [] then [] else Wanted(wishes[0]) + WantedAll(wishes[1..])
  }

  function Said(wishes: seq<Wish>): seq<Arg> {
    if wishes == [] then [] else (if wishes[0].Say? then [wishes[0].word] else []) + Said(wishes[1..])
  }

  /** A switch written alone must not stand before a word `true` or `false`. */
  predicate Unambiguous(wishes: seq<Wish>) {
    forall i :: 0 <= i < |wishes| - 1 && |Spelled(wishes[i])| == 1 && !wishes[i].Say? ==>
      !(wishes[i + 1].Say? && IsBoolWord(wishes[i + 1].word))
  }

  lemma ArmOfVerbosity(a: Arg)
    ensures IsVerbosity(a) <==> Arm(a).Mark?
  {
  }

  lemma KindOf(a: Arg)
    ensures IsBooleanFlag(a) <==> Classified(a).kind.Bool?
    ensures IsVerbosity(a) <==> Classified(a).kind.Mark?
    ensures InEarlyTable(a) <==> Classified(a).kind.Value?
    ensures a.Config? <==> Classified(a).kind.Skip?
    ensures IsDoctorFlag(a) <==> Classified(a).kind.Inert?
    ensures !InBoolTable(a) && !InValueTable(a) <==> Classified(a).kind.Other?
  {
    ClassifiedIsSound(a);
    ArmOfVerbosity(a);
    assert IsDoctorFlag(a) ==> !IsVerbosity(a);
  }

  lemma ItemsAppend(a: seq<Arg>, b: seq<Arg>)
    ensures Items(a + b) == Items(a) + Items(b)
  {
  }

  /** The first wish, read back from the front of the arguments. */
  lemma FirstWish(w: Wish, rest: seq<Arg>)
    requires CanWish(w)
    requires |Spelled(w)| == 1 && !w.Say? && rest != [] ==> !IsBoolWord(rest[0])
    ensures var items := Items(Spelled(w) + rest);
            && items != []
            && Reach(items) == |Spelled(w)| && items[Reach(items)..] == Items(rest)
            && SettingOf(items) == Wanted(w)
            && (IsGlobal(items[0]) <==> !w.Say?) && items[0] == Classified(Spelled(w)[0])
  {
    KindOf(Spelled(w)[0]);
    ItemsAppend(Spelled(w), rest);
    var items := Items(Spelled(w) + rest);
    assert items[0] == Classified(Spelled(w)[0]);
    assert |Spelled(w)| == 2 ==> items[1] == Classified(Spelled(w)[1]);
    assert |Spelled(w)| == 1 && rest != [] ==> items[1] == Classified(rest[0]);
    assert items[|Spelled(w)|..] == Items(rest);
  }

  lemma NextIsNoBoolWord(wishes: seq<Wish>)
    requires wishes != [] && Unambiguous(wishes) && |Spelled(wishes[0])| == 1 && !wishes[0].Say?
    requires forall i :: 0 <= i < |wishes| ==> CanWish(wishes[i])
    ensures var rest := SpelledAll(wishes[1..]); rest != [] ==> !IsBoolWord(rest[0])
  {
    if |wishes| > 1 {
      assert wishes[1..][0] == wishes[1];
      assert SpelledAll(wishes[1..])[0] == Spelled(wishes[1])[0];
      KindOf(Spelled(wishes[1])[0]);
      ClassifiedIsSound(Spelled(wishes[1])[0]);
    }
  }

  /** The scans undo the writing: for every list of wishes, the main scan reads
      exactly what they set, in order, and the third scan leaves exactly the words
      said, in order. */
  lemma {:induction false} WishesRoundTrip(wishes: seq<Wish>)
    requires Unambiguous(wishes) && forall i :: 0 <= i < |wishes| ==> CanWish(wishes[i])
    ensures Meaning(Items(SpelledAll(wishes))) == WantedAll(wishes)
    ensures Cleaned(Items(SpelledAll(wishes))) == Items(Said(wishes))
    decreases |wishes|
  {
    if wishes != [] {
      var w, rest := wishes[0], SpelledAll(wishes[1..]);
      if |Spelled(w)| == 1 && !w.Say? { NextIsNoBoolWord(wishes); }
      WishesRoundTrip(wishes[1..]);
      OneWishMore(w, rest, WantedAll(wishes[1..]), Said(wishes[1..]));
    }
  }

  lemma OneWishMore(w: Wish, rest: seq<Arg>, wanted: seq<Setting>, said: seq<Arg>)
    requires CanWish(w) && (|Spelled(w)| == 1 && !w.Say? && rest != [] ==> !IsBoolWord(rest[0]))
    requires Meaning(Items(rest)) == wanted && Cleaned(Items(rest)) == Items(said)
    ensures Meaning(Items(Spelled(w) + rest)) == Wanted(w) + wanted
    ensures Cleaned(Items(Spelled(w) + rest)) == Items((if w.Say? then [w.word] else []) + said)
  {
    FirstWish(w, rest);
    MeaningUnfolds(Items(Spelled(w) + rest));
    SaidGrows(w, said);
  }

  lemma SaidGrows(w: Wish, said: seq<Arg>)
    ensures (if w.Say? then [Classified(w.word)] else []) + Items(said)
         == Items((if w.Say? then [w.word] else []) + said)
  {
    ItemsAppend(if w.Say? then [w.word] else [], said);
  }

  // ----- properties of cleaning -------------------------------------------

  /** `small` is `big` with some elements left out, order kept. */
  predicate Subsequence(small: seq<Item>, big: seq<Item>) {
    || small == []
    || (&& big != []
        && if small[0] == big[0] then Subsequence(small[1..], big[1..]) else Subsequence(small, big[1..]))
  }

  lemma {:induction false} SubsequenceSkips(small: seq<Item>, a: Item, big: seq<Item>)
    requires Subsequence(small, big)
    ensures Subsequence(small, [a] + big)
    decreases |big|
  {
    assert ([a] + big)[1..] == big;
    if small != [] && small[0] == a {
      if small[0] == big[0] {
        assert big == [big[0]] + big[1..];
        SubsequenceSkips(small[1..], big[0], big[1..]);
      } else {
        DropFirst(small, big[1..]);
        SubsequenceSkips(small[1..], big[0], big[1..]);
        assert big == [big[0]] + big[1..];
      }
    }
  }

  lemma {:induction false} DropFirst(small: seq<Item>, big: seq<Item>)
    requires small != [] && Subsequence(small, big)
    ensures Subsequence(small[1..], big)
    decreases |big|
  {
    var tail := big[1..];
    assert big == [big[0]] + tail;
    if small[0] == big[0] {
      SubsequenceSkips(small[1..], big[0], tail);
    } else {
      DropFirst(small, tail);
      SubsequenceSkips(small[1..], big[0], tail);
    }
  }

  lemma SubsequenceKeeps(small: seq<Item>, a: Item, big: seq<Item>)
    requires Subsequence(small, big)
    ensures Subsequence([a] + small, [a] + big)
  {
    assert ([a] + small)[1..] == small && ([a] + big)[1..] == big;
  }

  lemma {:induction false} CleanedIsSubsequence(items: seq<Item>)
    ensures Subsequence(Cleaned(items), items)
    decreases |items|
  {
    if items != [] {
      var n := Reach(items);
      var rest := Cleaned(items[n..]);
      CleanedIsSubsequence(items[n..]);
      MeaningUnfolds(items);
      if IsGlobal(items[0]) {
        assert [] + rest == rest;
        SubsequenceDrops(rest, items, n);
      } else {
        SubsequenceKeeps(rest, items[0], items[1..]);
        assert [items[0]] + items[1..] == items;
      }
    }
  }

  lemma SubsequenceDrops(small: seq<Item>, big: seq<Item>, n: nat)
    requires 1 <= n <= 2 && n <= |big| && Subsequence(small, big[n..])
    ensures Subsequence(small, big)
  {
    if n == 2 {
      SubsequenceSkips(small, big[1], big[2..]);
      assert [big[1]] + big[2..] == big[1..];
    }
    SubsequenceSkips(small, big[0], big[1..]);
    assert [big[0]] + big[1..] == big;
  }

  predicate NoGlobal(items: seq<Item>) {
    forall i :: 0 <= i < |items| ==> !IsGlobal(items[i])
  }

  lemma {:induction false} CleanedHasNoGlobal(items: seq<Item>)
    ensures NoGlobal(Cleaned(items))
    decreases |items|
  {
    if items != [] {
      MeaningUnfolds(items);
      CleanedHasNoGlobal(items[Reach(items)..]);
    }
  }

  /** A list without global flags means nothing and stays as it is. */
  lemma {:induction false} NothingToClean(items: seq<Item>)
    requires NoGlobal(items)
    ensures Cleaned(items) == items && Meaning(items) == []
    decreases |items|
  {
    if items != [] {
      MeaningUnfolds(items);
      NothingToClean(items[1..]);
      assert [items[0]] + items[1..] == items;
    }
  }

  /** The cleaned list is an order-preserving subsequence without any global flag,
      and cleaning it again changes nothing and finds no setting in it. */
  lemma CleaningIsFinal(items: seq<Item>)
    ensures Subsequence(Cleaned(items), items)
    ensures NoGlobal(Cleaned(items))
    ensures Cleaned(Cleaned(items)) == Cleaned(items)
    ensures Meaning(Cleaned(items)) == []
  {
    CleanedIsSubsequence(items);
    CleanedHasNoGlobal(items);
    NothingToClean(Cleaned(items));
  }
}
