/** The decisions the injected library makes from its environment when it
    is activated (server/libFunq/funq.cpp): whether to activate at all, which
    mode to run in, and which TCP port a player listens on.  Everything Qt is
    left to the host; the outcome is the mode and port the hook is built
    with, or nothing when activation is declined. */
module Hook {
  import opened Wrappers
  import opened Environ

  const ACTIVATION_VAR := "FUNQ_ACTIVATION"
  const MODE_PICK_VAR := "FUNQ_MODE_PICK"
  const PORT_VAR := "FUNQ_PORT"

  /** `DEFAUT_HOOQ_PORT` */
  const DEFAULT_PORT := 9999

  datatype Mode = Player | Pick

  /** The arguments `active_hook_player` builds the hook with. */
  datatype HookStart = HookStart(mode: Mode, port: int)

  /** C `isspace` in the "C" locale. */
  predicate IsSpace(c: char) {
    c == ' ' || c == '\t' || c == '\n' || c == '\U{B}' || c == '\U{C}' || c == '\r'
  }

  predicate IsDigit(c: char) {
    '0' <= c <= '9'
  }

  predicate AllDigits(s: string) {
    forall i :: 0 <= i < |s| ==> IsDigit(s[i])
  }

  function DigitValue(c: char): (v: nat)
    requires IsDigit(c)
    ensures v < 10
  {
    c as int - '0' as int
  }

  function DigitChar(v: nat): (c: char)
    requires v < 10
    ensures IsDigit(c) && DigitValue(c) == v
  {
    ('0' as int + v) as char
  }

  /** `s` without its leading white space. */
  function SkipSpace(s: string): (r: string)
    ensures |r| <= |s| && r == s[|s| - |r|..]
    ensures |r| > 0 ==> !IsSpace(r[0])
  {
    if |s| > 0 && IsSpace(s[0]) then SkipSpace(s[1..]) else s
  }

  /** The longest prefix of `s` made of decimal digits. */
  function LeadingDigits(s: string): (r: string)
    ensures |r| <= |s| && r == s[..|r|]
    ensures AllDigits(r)
    ensures |r| < |s| ==> !IsDigit(s[|r|])
  {
    if |s| > 0 && IsDigit(s[0]) then [s[0]] + LeadingDigits(s[1..]) else ""
  }

  /** The number a string of decimal digits denotes (0 for no digits). */
  function DigitsValue(d: string): (v: nat)
    requires AllDigits(d)
  {
    if |d| == 0 then 0 else DigitsValue(d[..|d| - 1]) * 10 + DigitValue(d[|d| - 1])
  }

  /** `s` with one leading `+` or `-` removed, if there is one. */
  function AfterSign(t: string): string {
    if |t| > 0 && (t[0] == '-' || t[0] == '+') then t[1..] else t
  }

  /** After its leading white space, `s` starts with a minus sign. */
  predicate Negative(s: string) {
    var t := SkipSpace(s);
    |t| > 0 && t[0] == '-'
  }

  /** `atoi`: optional leading white space, an optional sign, then as many
      decimal digits as follow; 0 when there are none.  Integers are
      unbounded here (the C overflow case is not modelled). */
  function Atoi(s: string): (r: int)
    ensures !Negative(s) ==> r >= 0
    ensures Negative(s) ==> r <= 0
    ensures LeadingDigits(AfterSign(SkipSpace(s))) == "" ==> r == 0
    ensures r == 0 || |LeadingDigits(AfterSign(SkipSpace(s)))| > 0
  {
    var t := SkipSpace(s);
    if |t| > 0 && t[0] == '-' then -(DigitsValue(LeadingDigits(t[1..])) as int)
    else if |t| > 0 && t[0] == '+' then DigitsValue(LeadingDigits(t[1..]))
    else DigitsValue(LeadingDigits(t))
  }

  /** The decimal rendering of `n`, without sign or leading zeros. */
  function Decimal(n: nat): (s: string)
    ensures |s| > 0 && AllDigits(s)
  {
    if n < 10 then [DigitChar(n)] else Decimal(n / 10) + [DigitChar(n % 10)]
  }

  lemma {:induction false} DigitsValueDecimal(n: nat)
    ensures DigitsValue(Decimal(n)) == n
  {
    if n >= 10 {
      var d := Decimal(n);
      assert d[..|d| - 1] == Decimal(n / 10);
      DigitsValueDecimal(n / 10);
    }
  }

  lemma {:induction false} LeadingDigitsOfDigits(d: string, rest: string)
    requires AllDigits(d)
    requires |rest| == 0 || !IsDigit(rest[0])
    ensures LeadingDigits(d + rest) == d
  {
    if |d| > 0 {
      assert (d + rest)[1..] == d[1..] + rest;
      LeadingDigitsOfDigits(d[1..], rest);
      assert [d[0]] + d[1..] == d;
    } else {
      assert d + rest == rest;
    }
  }

  /** Round trip: `atoi` reads back the decimal rendering of a number, even
      when other text follows it (`"8080/tcp"` gives 8080). */
  lemma AtoiDecimal(n: nat, rest: string)
    requires |rest| == 0 || !IsDigit(rest[0])
    ensures Atoi(Decimal(n) + rest) == n
  {
    var d := Decimal(n);
    var s := d + rest;
    assert s[0] == d[0] && IsDigit(d[0]);
    assert SkipSpace(s) == s by {
      assert !IsSpace(s[0]);
    }
    assert !(s[0] == '-') && !(s[0] == '+');
    assert Atoi(s) == DigitsValue(LeadingDigits(s));
    LeadingDigitsOfDigits(d, rest);
    DigitsValueDecimal(n);
  }

  /** The port `active_hook_player` passes to the hook: `FUNQ_PORT` parsed by
      `atoi` when the variable is set and the parsed value is positive, the
      default otherwise. */
  function SelectPort(envPort: Option<string>): (port: int)
    ensures port > 0
    ensures envPort.None? ==> port == DEFAULT_PORT
    ensures envPort.Some? && Atoi(envPort.value) > 0 ==> port == Atoi(envPort.value)
    ensures envPort.Some? && Atoi(envPort.value) <= 0 ==> port == DEFAULT_PORT
  {
    var port := DEFAULT_PORT;
    if envPort.Some? && Atoi(envPort.value) > 0 then Atoi(envPort.value) else port
  }

  /** Any positive port written in decimal in `FUNQ_PORT` is the one chosen;
      a negative value, an empty one or one that starts with neither a digit,
      white space nor `+` keeps the default. */
  lemma PortFromEnvironment(n: nat, junk: string)
    requires n > 0
    requires |junk| == 0 || (!IsDigit(junk[0]) && !IsSpace(junk[0]) && junk[0] != '+')
    ensures SelectPort(Some(Decimal(n))) == n
    ensures SelectPort(Some("-" + Decimal(n))) == DEFAULT_PORT
    ensures SelectPort(Some(junk)) == DEFAULT_PORT
  {
    AtoiDecimal(n, "");
    assert Decimal(n) + "" == Decimal(n);
    AtoiNonPositive("-" + Decimal(n));
    AtoiNonPositive(junk);
  }

  /** Text that starts with a minus sign or with no digit, space or plus
      sign parses to a value that is not positive. */
  lemma AtoiNonPositive(s: string)
    requires |s| == 0 || (!IsDigit(s[0]) && !IsSpace(s[0]) && s[0] != '+')
    ensures Atoi(s) <= 0
  {
  }

  /** `Funq::activate(check_activation)`: with `check_activation` the hook
      starts only when `FUNQ_ACTIVATION` is exactly `"1"`; the mode is PICK
      exactly when `FUNQ_MODE_PICK` is `"1"`; the port is `SelectPort`'s. */
  function Activate(checkActivation: bool, env: Env): (r: Option<HookStart>)
    ensures r.Some? <==> !checkActivation || Lookup(env, ACTIVATION_VAR) == Some("1")
    ensures r.Some? ==> (r.value.mode == Pick <==> Lookup(env, MODE_PICK_VAR) == Some("1"))
    ensures r.Some? ==> r.value.port > 0
    ensures r.Some? ==> r.value.port == SelectPort(Lookup(env, PORT_VAR))
  {
    var activation := Lookup(env, ACTIVATION_VAR);
    if checkActivation && !(activation.Some? && activation.value == "1") then None
    else
      var pick := Lookup(env, MODE_PICK_VAR);
      var mode := if pick.Some? && pick.value == "1" then Pick else Player;
      Some(ActiveHookPlayer(mode, Lookup(env, PORT_VAR)))
  }

  /** `Funq::active_hook_player(mode)`: the hook is built with the given mode
      and the selected port. */
  function ActiveHookPlayer(mode: Mode, envPort: Option<string>): (h: HookStart)
    ensures h.mode == mode && h.port > 0
    ensures h.port == SelectPort(envPort)
    ensures envPort.None? ==> h.port == DEFAULT_PORT
  {
    HookStart(mode, SelectPort(envPort))
  }

  /** When `FUNQ_ACTIVATION` is not exactly `"1"` (unset, empty, `"0"`,
      `"yes"`, ...), a checked activation is declined whatever the other
      variables say, while an unchecked one still proceeds. */
  lemma DeclinedActivation(env: Env)
    requires Lookup(env, ACTIVATION_VAR) != Some("1")
    ensures Activate(true, env) == None
    ensures Activate(false, env).Some?
  {
  }

  /** Only the three `FUNQ_` variables matter: two environments that agree
      on them give the same outcome, whatever else they hold. */
  lemma ActivateDependsOnlyOnFunqVariables(check: bool, env1: Env, env2: Env)
    requires Lookup(env1, ACTIVATION_VAR) == Lookup(env2, ACTIVATION_VAR)
    requires Lookup(env1, MODE_PICK_VAR) == Lookup(env2, MODE_PICK_VAR)
    requires Lookup(env1, PORT_VAR) == Lookup(env2, PORT_VAR)
    ensures Activate(check, env1) == Activate(check, env2)
  {
    var a1, a2 := Activate(check, env1), Activate(check, env2);
    assert a1.Some? == a2.Some?;
    if a1.Some? {
      assert a1.value.mode == a2.value.mode;
      assert a1.value.port == a2.value.port;
    }
  }

  /** With `FUNQ_ACTIVATION` set to `"1"` the check makes no difference. */
  lemma CheckedMatchesUnchecked(env: Env)
    requires Lookup(env, ACTIVATION_VAR) == Some("1")
    ensures Activate(true, env) == Activate(false, env)
  {
  }
}
