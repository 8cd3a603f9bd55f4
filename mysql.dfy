/**
 * The pure helpers of the MySQL check: splitting off the subcommand, the
 * fixed table of checks and their display names, the my.cnf profile
 * override, the choice of connection target, and the parse of the server's
 * version string. The INI file is given as its list of sections, the root
 * certificate read as whether it succeeds.
 */
module MySql {
  import opened Wrappers
  import Decimal

  /* ---------------------------------------------------------------------
   * Subcommands
   * ------------------------------------------------------------------- */

  predicate HasPrefix(s: string, prefix: string) {
    |prefix| <= |s| && s[..|prefix|] == prefix
  }

  /**
   * `separateSub`: an empty argument list, or one whose first argument is a
   * flag, has no subcommand; otherwise the first argument is the subcommand
   * and the rest are its arguments.
   */
  function SeparateSub(argv: seq<string>): (r: (string, seq<string>))
    ensures argv == [] || HasPrefix(argv[0], "-") ==> r == ("", argv)
    ensures argv != [] && !HasPrefix(argv[0], "-") ==> [r.0] + r.1 == argv
  {
    if argv == [] || HasPrefix(argv[0], "-") then ("", argv) else (argv[0], argv[1..])
  }

  /** The entries of the `commands` table. */
  datatype Command = Replication | Connection | Uptime | ReadOnly

  function CommandKey(c: Command): string {
    match c
    case Replication => "replication"
    case Connection => "connection"
    case Uptime => "uptime"
    case ReadOnly => "readonly"
  }

  /** The lookup in the `commands` table: a hit exactly for the four keys. */
  function LookupCommand(sub: string): (c: Option<Command>)
    ensures c.Some? <==> sub in {"replication", "connection", "uptime", "readonly"}
    ensures c.Some? ==> CommandKey(c.value) == sub
  {
    if sub == "replication" then Some(Replication)
    else if sub == "connection" then Some(Connection)
    else if sub == "uptime" then Some(Uptime)
    else if sub == "readonly" then Some(ReadOnly)
    else None
  }

  /** Every command is found under its own key. */
  lemma LookupCommandKey(c: Command)
    ensures LookupCommand(CommandKey(c)) == Some(c)
  {
  }

  function ToUpperAscii(c: char): char {
    if 'a' <= c <= 'z' then (c as int - 32) as char else c
  }

  /** The checker's name: `MySQL `, the first letter upper-cased, then the rest. */
  function CheckerName(sub: string): (name: string)
    requires sub != []
    ensures |name| == |sub| + 6 && name[..6] == "MySQL "
    ensures name[6] == ToUpperAscii(sub[0]) && name[7..] == sub[1..]
  {
    "MySQL " + [ToUpperAscii(sub[0])] + sub[1..]
  }

  /** A table key given first is never taken for a flag: it becomes the subcommand. */
  lemma KeysAreNotFlags(args: seq<string>)
    ensures args != [] && args[0] in {"replication", "connection", "uptime", "readonly"} ==>
            !HasPrefix(args[0], "-") && SeparateSub(args) == (args[0], args[1..])
  {
    if args != [] && args[0] in {"replication", "connection", "uptime", "readonly"} {
      assert args[0][0] != '-';
    }
  }

  /** What `Do` does with its arguments: run a check, or print the usage. */
  datatype Invocation = Usage | Invoke(command: Command, argv: seq<string>, name: string)

  function Do(args: seq<string>): (r: Invocation)
    ensures r.Invoke? <==> args != [] && args[0] in {"replication", "connection", "uptime", "readonly"}
    ensures r.Invoke? ==>
      && CommandKey(r.command) == args[0]
      && r.argv == args[1..]
      && r.name == "MySQL " + [ToUpperAscii(args[0][0])] + args[0][1..]
  {
    KeysAreNotFlags(args);
    var (sub, argv) := SeparateSub(args);
    match LookupCommand(sub)
    case None => Usage
    case Some(c) => Invoke(c, argv, CheckerName(sub))
  }

  /** The four checker names; note `Readonly`, not `ReadOnly`. */
  lemma CheckerNames()
    ensures CheckerName(CommandKey(Replication)) == "MySQL Replication"
    ensures CheckerName(CommandKey(Connection)) == "MySQL Connection"
    ensures CheckerName(CommandKey(Uptime)) == "MySQL Uptime"
    ensures CheckerName(CommandKey(ReadOnly)) == "MySQL Readonly"
  {
  }

  /* ---------------------------------------------------------------------
   * Settings and the my.cnf profile
   * ------------------------------------------------------------------- */

  datatype Setting = Setting(
    host: string,
    port: string,
    socket: string,
    user: string,
    pass: string,
    cnf: string,
    profile: string,
    enableTLS: bool,
    tlsRootCert: string,
    tlsSkipVerify: bool)

  /** One section of the INI file: its name and its keys. */
  datatype Section = Section(name: string, keys: map<string, string>)

  /** What loading the INI file can give. */
  datatype IniLoad = IniError(reason: string) | IniNil | Ini(sections: seq<Section>)

  datatype CnfError =
    | CnfLoadError(reason: string)
    | ProfileNotFound(profile: string, cnf: string)
    | NilConfig(cnf: string)

  /** A key's value; a missing key reads as empty. */
  function KeyValue(keys: map<string, string>, key: string): string {
    if key in keys then keys[key] else ""
  }

  /** A non-empty value from the section replaces the current one. */
  function Pick(keys: map<string, string>, key: string, current: string): string {
    if KeyValue(keys, key) != "" then KeyValue(keys, key) else current
  }

  /** The override of a profile section: host, port, socket, user and password. */
  function ApplyProfile(m: Setting, keys: map<string, string>): Setting {
    m.(host := Pick(keys, "host", m.host),
       port := Pick(keys, "port", m.port),
       socket := Pick(keys, "socket", m.socket),
       user := Pick(keys, "user", m.user),
       pass := Pick(keys, "password", m.pass))
  }

  /** Each connection field takes the section's value when it is non-empty; nothing else changes. */
  lemma ApplyProfileRule(m: Setting, keys: map<string, string>)
    ensures var r := ApplyProfile(m, keys);
      && (KeyValue(keys, "host") != "" ==> r.host == KeyValue(keys, "host"))
      && (KeyValue(keys, "host") == "" ==> r.host == m.host)
      && (KeyValue(keys, "port") != "" ==> r.port == KeyValue(keys, "port"))
      && (KeyValue(keys, "port") == "" ==> r.port == m.port)
      && (KeyValue(keys, "socket") != "" ==> r.socket == KeyValue(keys, "socket"))
      && (KeyValue(keys, "socket") == "" ==> r.socket == m.socket)
      && (KeyValue(keys, "user") != "" ==> r.user == KeyValue(keys, "user"))
      && (KeyValue(keys, "user") == "" ==> r.user == m.user)
      && (KeyValue(keys, "password") != "" ==> r.pass == KeyValue(keys, "password"))
      && (KeyValue(keys, "password") == "" ==> r.pass == m.pass)
      && r.(host := m.host, port := m.port, socket := m.socket, user := m.user, pass := m.pass) == m
  {
  }

  /** Applying the same section twice changes nothing more. */
  lemma ApplyProfileIdempotent(m: Setting, keys: map<string, string>)
    ensures ApplyProfile(ApplyProfile(m, keys), keys) == ApplyProfile(m, keys)
  {
  }

  /** The index of the first section with the given name. */
  function FindSection(sections: seq<Section>, name: string): (r: Option<nat>)
    ensures r.Some? ==> r.value < |sections| && sections[r.value].name == name
    ensures r.Some? ==> forall j :: 0 <= j < r.value ==> sections[j].name != name
    ensures r.None? ==> forall j :: 0 <= j < |sections| ==> sections[j].name != name
  {
    if sections == [] then None
    else if sections[0].name == name then Some(0)
    else match FindSection(sections[1..], name)
      case None => None
      case Some(i) => Some(i + 1)
  }

  /** The first section with the name is the one found. */
  lemma FindSectionFirst(sections: seq<Section>, name: string, i: nat)
    requires i < |sections| && sections[i].name == name
    requires forall j :: 0 <= j < i ==> sections[j].name != name
    ensures FindSection(sections, name) == Some(i)
  {
  }

  /** What `readCnf` makes of the settings: the profile section's override, or an error. */
  function ProfileSetting(m: Setting, ini: IniLoad): (r: Result<Setting, CnfError>)
    ensures ini.IniError? ==> r == Failure(CnfLoadError(ini.reason))
    ensures ini.IniNil? ==> r == Failure(NilConfig(m.cnf))
    ensures ini.Ini? ==>
      (r.Success? <==> exists i :: 0 <= i < |ini.sections| && ini.sections[i].name == m.profile)
    ensures ini.Ini? && r.Failure? ==> r.error == ProfileNotFound(m.profile, m.cnf)
    ensures ini.Ini? ==>
      forall i :: (&& 0 <= i < |ini.sections|
                   && ini.sections[i].name == m.profile
                   && (forall j :: 0 <= j < i ==> ini.sections[j].name != m.profile))
                  ==> r == Success(ApplyProfile(m, ini.sections[i].keys))
  {
    match ini
    case IniError(reason) => Failure(CnfLoadError(reason))
    case IniNil => Failure(NilConfig(m.cnf))
    case Ini(sections) =>
      match FindSection(sections, m.profile)
      case None => Failure(ProfileNotFound(m.profile, m.cnf))
      case Some(i) => Success(ApplyProfile(m, sections[i].keys))
  }

  /**
   * `readCnf`: walk the sections; on the first one named like the profile,
   * overwrite each connection field whose value there is non-empty and stop.
   * The settings come back unchanged with any error.
   */
  method ReadCnf(m: Setting, ini: IniLoad) returns (m': Setting, err: Option<CnfError>)
    ensures ProfileSetting(m, ini).Success? ==> m' == ProfileSetting(m, ini).value && err.None?
    ensures ProfileSetting(m, ini).Failure? ==> m' == m && err == Some(ProfileSetting(m, ini).error)
  {
    m' := m;
    match ini {
      case IniError(reason) =>
        return m', Some(CnfLoadError(reason));
      case IniNil =>
        return m', Some(NilConfig(m.cnf));
      case Ini(sections) =>
        for i := 0 to |sections|
          invariant forall j :: 0 <= j < i ==> sections[j].name != m.profile
        {
          var s := sections[i];
          if s.name == m.profile {
            var keys := s.keys;
            if KeyValue(keys, "host") != "" {
              m' := m'.(host := KeyValue(keys, "host"));
            }
            assert m' == m.(host := Pick(keys, "host", m.host));
            if KeyValue(keys, "port") != "" {
              m' := m'.(port := KeyValue(keys, "port"));
            }
            assert m' == m.(host := Pick(keys, "host", m.host), port := Pick(keys, "port", m.port));
            if KeyValue(keys, "socket") != "" {
              m' := m'.(socket := KeyValue(keys, "socket"));
            }
            assert m' == m.(host := Pick(keys, "host", m.host), port := Pick(keys, "port", m.port),
                            socket := Pick(keys, "socket", m.socket));
            if KeyValue(keys, "user") != "" {
              m' := m'.(user := KeyValue(keys, "user"));
            }
            assert m' == m.(host := Pick(keys, "host", m.host), port := Pick(keys, "port", m.port),
                            socket := Pick(keys, "socket", m.socket), user := Pick(keys, "user", m.user));
            if KeyValue(keys, "password") != "" {
              m' := m'.(pass := KeyValue(keys, "password"));
            }
            assert m' == ApplyProfile(m, keys);
            FindSectionFirst(sections, m.profile, i);
            return m', None;
          }
        }
        return m', Some(ProfileNotFound(m.profile, m.cnf));
    }
  }

  /* ---------------------------------------------------------------------
   * Connection target
   * ------------------------------------------------------------------- */

  datatype TlsConfig = TlsConfig(rootCert: Option<string>, insecureSkipVerify: bool)

  /** The driver configuration `newDB` builds. */
  datatype DbConfig = DbConfig(user: string, passwd: string, net: string, addr: string,
                               allowNativePasswords: bool, tls: Option<TlsConfig>)

  datatype DbError = ConfigError(cause: CnfError) | CannotReadCert(path: string)

  /** The settings `newDB` works from: the profile override only when a my.cnf is given. */
  function EffectiveSetting(m: Setting, ini: IniLoad): (r: Result<Setting, CnfError>)
    ensures m.cnf == "" ==> r == Success(m)
    ensures r.Success? ==>
      r.value.(host := m.host, port := m.port, socket := m.socket, user := m.user, pass := m.pass) == m
  {
    if m.cnf != "" then ProfileSetting(m, ini) else Success(m)
  }

  /**
   * `newDB` up to the driver: a non-empty socket selects the unix socket,
   * otherwise TCP to `host:port`; TLS, when enabled, uses the root
   * certificate if one is named and can be read.
   */
  method NewDB(m: Setting, ini: IniLoad, rootCertReadable: bool) returns (r: Result<DbConfig, DbError>)
    ensures EffectiveSetting(m, ini).Failure? ==> r == Failure(ConfigError(EffectiveSetting(m, ini).error))
    ensures EffectiveSetting(m, ini).Success? ==>
      var e := EffectiveSetting(m, ini).value;
      if e.enableTLS && e.tlsRootCert != "" && !rootCertReadable then
        r == Failure(CannotReadCert(e.tlsRootCert))
      else
        && r.Success?
        && r.value.user == e.user && r.value.passwd == e.pass && r.value.allowNativePasswords
        && (e.socket != "" ==> r.value.net == "unix" && r.value.addr == e.socket)
        && (e.socket == "" ==> r.value.net == "tcp" && r.value.addr == e.host + ":" + e.port)
        && r.value.tls == (if e.enableTLS
                           then Some(TlsConfig(if e.tlsRootCert != "" then Some(e.tlsRootCert) else None,
                                               e.tlsSkipVerify))
                           else None)
  {
    var s := m;
    if s.cnf != "" {
      var err;
      s, err := ReadCnf(s, ini);
      if err.Some? {
        return Failure(ConfigError(err.value));
      }
    }
    var proto := "tcp";
    var target := s.host + ":" + s.port;
    if s.socket != "" {
      proto := "unix";
      target := s.socket;
    }
    var tls: Option<TlsConfig> := None;
    if s.enableTLS {
      var rootCert: Option<string> := None;
      if s.tlsRootCert != "" {
        if !rootCertReadable {
          return Failure(CannotReadCert(s.tlsRootCert));
        }
        rootCert := Some(s.tlsRootCert);
      }
      tls := Some(TlsConfig(rootCert, s.tlsSkipVerify));
    }
    return Success(DbConfig(s.user, s.pass, proto, target, true, tls));
  }

  /* ---------------------------------------------------------------------
   * Server version
   * ------------------------------------------------------------------- */

  datatype Version = Version(major: nat, minor: nat, patch: nat)

  datatype VersionError = ParseError

  /** The largest value a Go `int` holds. */
  const MaxInt: nat := 0x7fff_ffff_ffff_ffff

  /**
   * One `%d`: the digit run at the head of the input must be non-empty and
   * fit an `int`. Gives the value and the input after the run.
   */
  function ScanDecimal(s: string): (r: Option<(nat, string)>)
    ensures r.Some? ==> r.value.0 <= MaxInt && |r.value.1| < |s| && r.value.1 == s[|s| - |r.value.1|..]
  {
    var k := Decimal.LeadingDigits(s);
    var token := s[..k];
    if k == 0 || Decimal.DigitsValue(token) > MaxInt then None
    else Some((Decimal.DigitsValue(token), s[k..]))
  }

  /** A literal in the format must match the next input character. */
  function ScanLiteral(c: char, s: string): Option<string> {
    if s != [] && s[0] == c then Some(s[1..]) else None
  }

  /** A `%d` followed by the literal `.` of the format. */
  function ScanField(s: string): Option<(nat, string)> {
    match ScanDecimal(s)
    case None => None
    case Some((v, r)) =>
      match ScanLiteral('.', r)
      case None => None
      case Some(r') => Some((v, r'))
  }

  /** `fmt.Sscanf(raw, "%d.%d.%d", ...)`: the leading dotted triple; anything after it is ignored. */
  function ParseVersion(raw: string): (r: Result<Version, VersionError>)
    ensures r.Success? ==> r.value.major <= MaxInt && r.value.minor <= MaxInt && r.value.patch <= MaxInt
  {
    match ScanField(raw)
    case None => Failure(ParseError)
    case Some((major, r1)) =>
      match ScanField(r1)
      case None => Failure(ParseError)
      case Some((minor, r2)) =>
        match ScanDecimal(r2)
        case None => Failure(ParseError)
        case Some((patch, _)) => Success(Version(major, minor, patch))
  }

  /** A non-empty run of digits. */
  predicate Digits(d: string) {
    d != [] && Decimal.AllDigits(d)
  }

  predicate DigitsFit(d: string)
    requires Decimal.AllDigits(d)
  {
    Decimal.DigitsValue(d) <= MaxInt
  }

  /** The text after a number that does not continue its `%d` token. */
  predicate EndsToken(rest: string) {
    rest == [] || !Decimal.IsDigit(rest[0])
  }

  /**
   * `raw` is three digit runs separated by dots, followed by text that does
   * not continue the last run.
   */
  predicate DottedTriple(raw: string, d1: string, d2: string, d3: string, rest: string) {
    && Digits(d1) && Digits(d2) && Digits(d3) && EndsToken(rest)
    && raw == d1 + ("." + (d2 + ("." + (d3 + rest))))
  }

  lemma ScanDecimalOfDigits(d: string, rest: string)
    requires Digits(d) && DigitsFit(d) && EndsToken(rest)
    ensures ScanDecimal(d + rest) == Some((Decimal.DigitsValue(d), rest))
  {
    Decimal.LeadingDigitsOfConcat(d, rest);
    assert (d + rest)[..|d|] == d && (d + rest)[|d|..] == rest;
  }

  lemma ScanFieldOfDigits(d: string, rest: string)
    requires Digits(d) && DigitsFit(d)
    ensures ScanField(d + ("." + rest)) == Some((Decimal.DigitsValue(d), rest))
  {
    ScanDecimalOfDigits(d, "." + rest);
  }

  /** A successful `%d` read a non-empty digit run at the head of its input. */
  lemma ScanDecimalSplits(s: string)
    requires ScanDecimal(s).Some?
    ensures var k := Decimal.LeadingDigits(s);
      && Digits(s[..k]) && EndsToken(s[k..]) && s == s[..k] + s[k..]
      && ScanDecimal(s).value == (Decimal.DigitsValue(s[..k]), s[k..])
  {
  }

  lemma ScanFieldSplits(s: string)
    requires ScanField(s).Some?
    ensures var k := Decimal.LeadingDigits(s);
      && Digits(s[..k])
      && s == s[..k] + ("." + ScanField(s).value.1)
      && ScanField(s).value.0 == Decimal.DigitsValue(s[..k])
  {
    ScanDecimalSplits(s);
    var k := Decimal.LeadingDigits(s);
    assert s[k..] == "." + s[k..][1..];
  }

  /** Every dotted triple whose numbers fit an `int` is read, whatever follows it. */
  lemma ParseVersionComplete(raw: string, d1: string, d2: string, d3: string, rest: string)
    requires DottedTriple(raw, d1, d2, d3, rest)
    requires DigitsFit(d1) && DigitsFit(d2) && DigitsFit(d3)
    ensures ParseVersion(raw) ==
            Success(Version(Decimal.DigitsValue(d1), Decimal.DigitsValue(d2), Decimal.DigitsValue(d3)))
  {
    ScanFieldOfDigits(d1, d2 + ("." + (d3 + rest)));
    ScanFieldOfDigits(d2, d3 + rest);
    ScanDecimalOfDigits(d3, rest);
  }

  /** Whatever is read is a dotted triple at the head of the input, each number fitting an `int`. */
  lemma ParseVersionSound(raw: string)
    requires ParseVersion(raw).Success?
    ensures exists d1, d2, d3, rest ::
      && DottedTriple(raw, d1, d2, d3, rest)
      && DigitsFit(d1) && DigitsFit(d2) && DigitsFit(d3)
      && ParseVersion(raw).value ==
         Version(Decimal.DigitsValue(d1), Decimal.DigitsValue(d2), Decimal.DigitsValue(d3))
  {
    ScanFieldSplits(raw);
    var r1 := ScanField(raw).value.1;
    ScanFieldSplits(r1);
    var r2 := ScanField(r1).value.1;
    ScanDecimalSplits(r2);
    var d1 := raw[..Decimal.LeadingDigits(raw)];
    var d2 := r1[..Decimal.LeadingDigits(r1)];
    var d3, rest := r2[..Decimal.LeadingDigits(r2)], r2[Decimal.LeadingDigits(r2)..];
    assert DottedTriple(raw, d1, d2, d3, rest);
  }

  /** A Debian server's version string: `5.5.44-0+deb8u1-log` reads as 5.5.44. */
  lemma ParseVersionExample()
    ensures ParseVersion("5.5.44-0+deb8u1-log") == Success(Version(5, 5, 44))
  {
    assert "5.5.44-0+deb8u1-log" == "5" + ("." + ("5" + ("." + ("44" + "-0+deb8u1-log"))));
    assert Decimal.DigitsValue("44") == 44 by {
      assert "44"[..1] == "4";
    }
    ParseVersionComplete("5.5.44-0+deb8u1-log", "5", "5", "44", "-0+deb8u1-log");
  }

  /** An incomplete triple is an error. */
  lemma ParseVersionIncomplete()
    ensures ParseVersion("8.0").Failure?
  {
    assert Decimal.LeadingDigits("8.0") == 1 by {
      assert "8.0"[1..] == ".0";
    }
    assert ".0"[1..] == "0";
    assert Decimal.LeadingDigits("0") == 1;
  }
}
