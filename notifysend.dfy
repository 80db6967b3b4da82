/**
 * The desktop notification record and the notify-send command line built
 * from it, as in notify/notifysend.py. Running the command is not modelled;
 * `os.path.abspath` is the opaque parameter `absPath`.
 */
module NotifySend {
  import opened Wrappers

  datatype DesktopNotification = DesktopNotification(
    summary: string,
    body: Option<string>,
    urgency: Option<string>,
    expireTime: Option<int>,
    appName: Option<string>,
    icon: Option<string>)

  /** A notification built from its summary alone: every optional field keeps its default. */
  function WithSummary(summary: string): (n: DesktopNotification)
    ensures n.summary == summary
    ensures n.body.None? && n.urgency.None? && n.expireTime.None? && n.appName.None? && n.icon.None?
  {
    DesktopNotification(summary, None, None, None, None, None)
  }

  /** Python truthiness of an optional string: present and non-empty. */
  predicate Truthy(s: Option<string>) {
    s.Some? && s.value != ""
  }

  /** Python's `str` on an integer: optional minus sign, then decimal digits. */
  function DecimalString(i: int): (r: string)
    ensures |r| >= 1
    ensures r[0] == '-' <==> i < 0
  {
    var digits := Digits(if i < 0 then -i else i);
    if i < 0 then "-" + digits else digits
  }

  /** Every character is a decimal digit. */
  predicate AllDigits(s: string) {
    forall k :: 0 <= k < |s| ==> '0' <= s[k] <= '9'
  }

  function Digits(n: nat): (r: string)
    ensures |r| >= 1 && AllDigits(r)
  {
    var last := ['0' + (n % 10) as char];
    if n < 10 then last else Digits(n / 10) + last
  }

  /** The value of a string of decimal digits, most significant first. */
  function DigitsValue(s: string): nat
    requires AllDigits(s)
  {
    if s == [] then 0
    else DigitsValue(s[..|s| - 1]) * 10 + (s[|s| - 1] as int - '0' as int)
  }

  /** Reading back a decimal string: an optional minus sign, then digits. */
  function ParseDecimal(s: string): int
    requires |s| >= 1 && AllDigits(s[1..])
    requires s[0] == '-' || '0' <= s[0] <= '9'
  {
    if s[0] == '-' then -(DigitsValue(s[1..]) as int) else DigitsValue(s)
  }

  lemma {:induction false} DigitsRoundTrip(n: nat)
    ensures DigitsValue(Digits(n)) == n
    ensures Digits(n)[0] != '0' || n == 0
  {
    if n >= 10 {
      DigitsRoundTrip(n / 10);
      var r := Digits(n);
      assert r[..|r| - 1] == Digits(n / 10);
    }
  }

  /** The expiry written with `str` reads back as the same integer. */
  lemma DecimalStringRoundTrip(i: int)
    ensures ParseDecimal(DecimalString(i)) == i
  {
    var r := DecimalString(i);
    DigitsRoundTrip(if i < 0 then -i else i);
    if i < 0 {
      assert r[1..] == Digits(-i);
    }
  }

  /** The four options the source may pass, in the order it adds them. */
  datatype FlagName = Urgency | ExpireTime | AppName | Icon

  /** How each option is written on the command line. */
  function Spelling(name: FlagName): string {
    match name
    case Urgency => "-u"
    case ExpireTime => "-t"
    case AppName => "-a"
    case Icon => "-i"
  }

  /** Position of each option in the fixed order -u, -t, -a, -i. */
  function Rank(name: FlagName): nat {
    match name
    case Urgency => 0
    case ExpireTime => 1
    case AppName => 2
    case Icon => 3
  }

  /**
   * The argument each option should carry for `n`, field by field: urgency,
   * application name and icon only when truthy (an empty string is left
   * out), the expiry whenever it is not None (so 0 is passed); the icon is
   * made absolute.
   */
  function Requested(n: DesktopNotification, absPath: string -> string, name: FlagName): Option<string> {
    match name
    case Urgency => if Truthy(n.urgency) then Some(n.urgency.value) else None
    case ExpireTime => if n.expireTime.Some? then Some(DecimalString(n.expireTime.value)) else None
    case AppName => if Truthy(n.appName) then Some(n.appName.value) else None
    case Icon => if Truthy(n.icon) then Some(absPath(n.icon.value)) else None
  }

  /** An option of the command line: its flag and the argument that follows it. */
  datatype Flag = Flag(name: FlagName, value: string)

  /** The argument given with option `name`, at its first occurrence. */
  function Lookup(flags: seq<Flag>, name: FlagName): Option<string> {
    if flags == [] then None
    else if flags[0].name == name then Some(flags[0].value)
    else Lookup(flags[1..], name)
  }

  /** Every option comes strictly after those of lower rank, so none appears twice. */
  predicate InOrder(flags: seq<Flag>) {
    forall i, j :: 0 <= i < j < |flags| ==> Rank(flags[i].name) < Rank(flags[j].name)
  }

  /** Option names in strictly increasing rank. */
  predicate Ascending(names: seq<FlagName>) {
    forall i, j :: 0 <= i < j < |names| ==> Rank(names[i]) < Rank(names[j])
  }

  /** The option for `name`, if `req` asks for it. */
  function Here(req: FlagName -> Option<string>, name: FlagName): seq<Flag> {
    match req(name)
    case Some(value) => [Flag(name, value)]
    case None => []
  }

  /** The options `req` asks for among `names`, in the order of `names`. */
  function FlagsOf(req: FlagName -> Option<string>, names: seq<FlagName>): seq<Flag> {
    if names == [] then [] else Here(req, names[0]) + FlagsOf(req, names[1..])
  }

  /** What the source asks of each option for `n`, as one function value. */
  function RequestOf(n: DesktopNotification, absPath: string -> string): FlagName -> Option<string> {
    name => Requested(n, absPath, name)
  }

  /** The options notify-send is given for `n`, in the order the source adds them. */
  function Flags(n: DesktopNotification, absPath: string -> string): seq<Flag> {
    FlagsOf(RequestOf(n, absPath), [Urgency, ExpireTime, AppName, Icon])
  }

  lemma {:induction false} FlagsOfAbove(req: FlagName -> Option<string>, names: seq<FlagName>, bound: nat)
    requires forall k :: 0 <= k < |names| ==> bound <= Rank(names[k])
    ensures forall f :: f in FlagsOf(req, names) ==> bound <= Rank(f.name)
  {
    if names != [] {
      FlagsOfAbove(req, names[1..], bound);
    }
  }

  lemma {:induction false} FlagsOfInOrder(req: FlagName -> Option<string>, names: seq<FlagName>)
    requires Ascending(names)
    ensures InOrder(FlagsOf(req, names))
  {
    if names != [] {
      var here, rest := Here(req, names[0]), FlagsOf(req, names[1..]);
      FlagsOfInOrder(req, names[1..]);
      FlagsOfAbove(req, names[1..], Rank(names[0]) + 1);
      var r := here + rest;
      forall i, j | 0 <= i < j < |r| ensures Rank(r[i].name) < Rank(r[j].name) {
        if i < |here| {
          assert r[j] == rest[j - |here|];
          assert r[j] in rest;
        } else {
          assert r[i] == rest[i - |here|] && r[j] == rest[j - |here|];
        }
      }
    }
  }

  lemma {:induction false} FlagsOfLookup(req: FlagName -> Option<string>, names: seq<FlagName>, name: FlagName)
    requires Ascending(names)
    ensures Lookup(FlagsOf(req, names), name) == if name in names then req(name) else None
  {
    if names != [] {
      var here, rest := Here(req, names[0]), FlagsOf(req, names[1..]);
      FlagsOfLookup(req, names[1..], name);
      LookupAppend(here, rest, name);
      assert names == [names[0]] + names[1..];
    }
  }

  /**
   * The option list holds exactly the requested options, each with its
   * argument, in the fixed order -u, -t, -a, -i.
   */
  lemma FlagsMeaning(n: DesktopNotification, absPath: string -> string, name: FlagName)
    ensures InOrder(Flags(n, absPath))
    ensures Lookup(Flags(n, absPath), name) == Requested(n, absPath, name)
  {
    var names := [Urgency, ExpireTime, AppName, Icon];
    FlagsOfInOrder(RequestOf(n, absPath), names);
    FlagsOfLookup(RequestOf(n, absPath), names, name);
    assert names[Rank(name)] == name;
  }

  lemma {:induction false} LookupAppend(a: seq<Flag>, b: seq<Flag>, name: FlagName)
    ensures Lookup(a + b, name) == if Lookup(a, name).Some? then Lookup(a, name) else Lookup(b, name)
  {
    if a == [] {
      assert a + b == b;
    } else {
      assert (a + b)[0] == a[0] && (a + b)[1..] == a[1..] + b;
      LookupAppend(a[1..], b, name);
    }
  }

  /** The options written out as consecutive command-line words. */
  function Words(flags: seq<Flag>): (r: seq<string>)
    ensures |r| == 2 * |flags|
  {
    if flags == [] then [] else [Spelling(flags[0].name), flags[0].value] + Words(flags[1..])
  }

  lemma {:induction false} WordsAppend(a: seq<Flag>, b: seq<Flag>)
    ensures Words(a + b) == Words(a) + Words(b)
  {
    if a == [] {
      assert a + b == b;
    } else {
      assert (a + b)[0] == a[0] && (a + b)[1..] == a[1..] + b;
      WordsAppend(a[1..], b);
    }
  }

  /** One `if ...: cmd.extend([flag, argument])` of the source. */
  function WithOption(cmd: seq<string>, req: FlagName -> Option<string>, name: FlagName): seq<string> {
    match req(name)
    case Some(value) => cmd + [Spelling(name), value]
    case None => cmd
  }

  /** The `if` blocks of the source for `names`, one after another. */
  function WithOptions(cmd: seq<string>, req: FlagName -> Option<string>, names: seq<FlagName>): seq<string>
    decreases names
  {
    if names == [] then cmd else WithOptions(WithOption(cmd, req, names[0]), req, names[1..])
  }

  /**
   * The argument vector for `n`, built as the source builds it: the command,
   * each option in turn, the summary, then the body when it is non-empty.
   */
  function Argv(program: string, n: DesktopNotification, absPath: string -> string): seq<string> {
    WithOptions([program], RequestOf(n, absPath), [Urgency, ExpireTime, AppName, Icon])
    + [n.summary] + (if Truthy(n.body) then [n.body.value] else [])
  }

  /** The `if` blocks append the option list, written out. */
  lemma {:induction false} WithOptionsWords(cmd: seq<string>, req: FlagName -> Option<string>, names: seq<FlagName>)
    ensures WithOptions(cmd, req, names) == cmd + Words(FlagsOf(req, names))
    decreases names
  {
    if names == [] {
      assert cmd + Words([]) == cmd;
    } else {
      var here, next := Here(req, names[0]), WithOption(cmd, req, names[0]);
      assert next == cmd + Words(here) by {
        if req(names[0]).None? {
          assert cmd + [] == cmd;
        }
      }
      WithOptionsWords(next, req, names[1..]);
      WordsAppend(here, FlagsOf(req, names[1..]));
    }
  }

  /**
   * The command comes first, then the words of the option list, then the
   * summary; the body is the last word exactly when it is non-empty, and
   * otherwise the summary is.
   */
  lemma ArgvShape(program: string, n: DesktopNotification, absPath: string -> string)
    ensures var argv, flags := Argv(program, n, absPath), Flags(n, absPath);
      && |argv| == 2 + 2 * |flags| + (if Truthy(n.body) then 1 else 0)
      && argv[0] == program
      && argv[1..1 + 2 * |flags|] == Words(flags)
      && argv[1 + 2 * |flags|] == n.summary
      && argv[|argv| - 1] == if Truthy(n.body) then n.body.value else n.summary
  {
    WithOptionsWords([program], RequestOf(n, absPath), [Urgency, ExpireTime, AppName, Icon]);
  }

  class NotifySend {
    const notifySendCmd: string

    constructor (notifySendCmd: string)
      ensures this.notifySendCmd == notifySendCmd
    {
      this.notifySendCmd := notifySendCmd;
    }

    /** The argument vector `notify` executes for `n`. */
    method Command(n: DesktopNotification, absPath: string -> string) returns (cmd: seq<string>)
      ensures cmd == Argv(notifySendCmd, n, absPath)
    {
      cmd := [notifySendCmd];
      if Truthy(n.urgency) {
        cmd := cmd + ["-u", n.urgency.value];
      }
      ghost var req := RequestOf(n, absPath);
      assert cmd == WithOption([notifySendCmd], req, Urgency);
      ghost var prefix := cmd;
      if n.expireTime.Some? {
        cmd := cmd + ["-t", DecimalString(n.expireTime.value)];
      }
      assert cmd == WithOption(prefix, req, ExpireTime);
      prefix := cmd;
      if Truthy(n.appName) {
        cmd := cmd + ["-a", n.appName.value];
      }
      assert cmd == WithOption(prefix, req, AppName);
      prefix := cmd;
      if Truthy(n.icon) {
        cmd := cmd + ["-i", absPath(n.icon.value)];
      }
      assert cmd == WithOption(prefix, req, Icon);
      assert cmd == WithOptions([notifySendCmd], req, [Urgency, ExpireTime, AppName, Icon]) by {
        var names := [Urgency, ExpireTime, AppName, Icon];
        assert names[1..] == [ExpireTime, AppName, Icon];
        assert names[1..][1..] == [AppName, Icon];
        assert names[1..][1..][1..] == [Icon];
      }
      cmd := cmd + [n.summary];
      if Truthy(n.body) {
        cmd := cmd + [n.body.value];
      }
    }
  }
}
