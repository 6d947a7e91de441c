/**
 * Startup arguments of the two MongoDB processes a unit runs: `mongod`
 * (get_mongod_args) and the `mongos` router (get_mongos_args). Arguments are
 * modelled as the token list that the source finally joins with single spaces.
 */
module StartupArgs {
  import opened Text
  import opened Results

  const KeyFile := "keyFile"
  const TlsExtPemFile := "external-cert.pem"
  const TlsExtCaFile := "external-ca.crt"
  const TlsIntPemFile := "internal-cert.pem"
  const TlsIntCaFile := "internal-ca.crt"

  const MongodbCommonDir := "/var/snap/charmed-mongodb/common"
  const MongodbSnapDataDir := "/var/snap/charmed-mongodb/current"

  const DataDir := "/var/lib/mongodb"
  const LogDir := "/var/log/mongodb"
  const LogToSyslog := true
  const ConfDir := "/etc/mongod"
  const MongodbLogFilename := "mongodb.log"

  /** The role get_mongod_args assumes when none is given. */
  const DefaultRole := "replication"

  /** The unix socket a subordinate router binds to. */
  const MongosSocket := MongodbCommonDir + "/var/mongodb-27018.sock"

  /**
   * Values the builders read from the charm's `config` module, which is not
   * part of this model: the two ports, the audit-log format and the names of
   * the config-server and shard roles.
   */
  datatype Settings = Settings(
    mongodbPort: nat,
    mongosPort: nat,
    auditFormat: string,
    configServerRole: string,
    shardRole: string)

  /** The fields of MongoDBConfiguration the builders read. */
  datatype MongoConfig = MongoConfig(replset: string, tlsExternal: bool, tlsInternal: bool)

  // ---------------------------------------------------------------------------
  // Arguments

  /** The mongod options get_mongod_args can give. */
  datatype MongodOption =
    | BindIpAll | ReplSet | DbPath | Port | AuditDestination | AuditFormat | LogPath
    | Auth | ClusterAuthMode | KeyFileOption
    | TlsCAFile | TlsCertificateKeyFile | TlsMode | TlsDisabledProtocols
    | TlsAllowInvalidCertificates | TlsClusterCAFile | TlsClusterFile
    | ConfigSvr | ShardSvr

  /** How an option is spelt: a bare flag, or a name ending in `=` that the value follows. */
  function Spelling(o: MongodOption): string
  {
    match o
    case BindIpAll => "--bind_ip_all"
    case ReplSet => "--replSet="
    case DbPath => "--dbpath="
    case Port => "--port="
    case AuditDestination => "--auditDestination="
    case AuditFormat => "--auditFormat="
    case LogPath => "--logpath="
    case Auth => "--auth"
    case ClusterAuthMode => "--clusterAuthMode="
    case KeyFileOption => "--keyFile="
    case TlsCAFile => "--tlsCAFile="
    case TlsCertificateKeyFile => "--tlsCertificateKeyFile="
    case TlsMode => "--tlsMode="
    case TlsDisabledProtocols => "--tlsDisabledProtocols="
    case TlsAllowInvalidCertificates => "--tlsAllowInvalidCertificates"
    case TlsClusterCAFile => "--tlsClusterCAFile="
    case TlsClusterFile => "--tlsClusterFile="
    case ConfigSvr => "--configsvr"
    case ShardSvr => "--shardsvr"
  }

  /**
   * One element of the list get_mongod_args joins: a bare flag, an option
   * with its value, or a piece of text that sets no option (the logging
   * options and the closing newline).
   */
  datatype Arg = Flag(option: MongodOption) | Valued(option: MongodOption, value: string) | Raw(text: string)

  /** The text of an argument, as the source's string literals and f-strings spell it. */
  function Render(a: Arg): string
  {
    match a
    case Flag(o) => Spelling(o)
    case Valued(o, v) => Spelling(o) + v
    case Raw(t) => t
  }

  function Rendered(args: seq<Arg>): (tokens: seq<string>)
    ensures |tokens| == |args|
    ensures forall i :: 0 <= i < |args| ==> tokens[i] == Render(args[i])
  {
    seq(|args|, i requires 0 <= i < |args| => Render(args[i]))
  }

  /** The options that are bare flags; every other option takes a value after its `=`. */
  predicate IsFlag(o: MongodOption)
  {
    o == BindIpAll || o == Auth || o == TlsAllowInvalidCertificates || o == ConfigSvr || o == ShardSvr
  }

  /**
   * An argument as the builders form it: flags bare, valued options with a
   * value, and raw text that does not start like an option.
   */
  predicate WellFormed(a: Arg)
  {
    match a
    case Flag(o) => IsFlag(o)
    case Valued(o, _) => !IsFlag(o)
    case Raw(t) => |t| == 0 || t[0] != '-'
  }

  /**
   * The option a token starts with, read off by the characters that tell
   * the spellings apart.
   */
  function OptionAt(t: string): Option<MongodOption>
  {
    if |t| < 6 then None
    else if t[2] == 'b' then Some(BindIpAll)
    else if t[2] == 'r' then Some(ReplSet)
    else if t[2] == 'd' then Some(DbPath)
    else if t[2] == 'p' then Some(Port)
    else if t[2] == 'l' then Some(LogPath)
    else if t[2] == 'k' then Some(KeyFileOption)
    else if t[2] == 's' then Some(ShardSvr)
    else if t[2] == 'a' then
      if t[4] == 't' then Some(Auth)
      else if |t| < 8 then None
      else if t[7] == 'D' then Some(AuditDestination)
      else Some(AuditFormat)
    else if t[2] == 'c' then
      if t[3] == 'l' then Some(ClusterAuthMode) else Some(ConfigSvr)
    else if t[2] == 't' then
      if t[5] == 'M' then Some(TlsMode)
      else if t[5] == 'D' then Some(TlsDisabledProtocols)
      else if t[5] == 'A' then Some(TlsAllowInvalidCertificates)
      else if |t| < 7 then None
      else if t[6] == 'A' then Some(TlsCAFile)
      else if t[6] == 'e' then Some(TlsCertificateKeyFile)
      else if |t| < 13 then None
      else if t[12] == 'C' then Some(TlsClusterCAFile)
      else Some(TlsClusterFile)
    else None
  }

  // Each spelling is read back as its own option, in three groups of options.

  lemma OwnSpellingPlain(o: MongodOption)
    ensures o == BindIpAll || o == ReplSet || o == DbPath || o == Port || o == LogPath
            || o == KeyFileOption || o == ShardSvr
      ==> OptionAt(Spelling(o)) == Some(o)
  {
  }

  lemma OwnSpellingAuditAndCluster(o: MongodOption)
    ensures o == Auth || o == AuditDestination || o == AuditFormat || o == ClusterAuthMode
            || o == ConfigSvr || o == TlsMode
      ==> OptionAt(Spelling(o)) == Some(o)
  {
  }

  lemma OwnSpellingTls(o: MongodOption)
    ensures o == TlsDisabledProtocols || o == TlsAllowInvalidCertificates || o == TlsCAFile
      ==> OptionAt(Spelling(o)) == Some(o)
  {
  }

  lemma OwnSpellingTlsFiles(o: MongodOption)
    ensures o == TlsCertificateKeyFile || o == TlsClusterCAFile || o == TlsClusterFile
      ==> OptionAt(Spelling(o)) == Some(o)
  {
  }

  /** Each spelling is read back as its own option. */
  lemma OptionAtOwnSpelling(o: MongodOption)
    ensures OptionAt(Spelling(o)) == Some(o)
  {
    OwnSpellingPlain(o);
    OwnSpellingAuditAndCluster(o);
    OwnSpellingTls(o);
    OwnSpellingTlsFiles(o);
  }

  /** Every spelling starts with a dash. */
  lemma SpellingDash(o: MongodOption)
    ensures |Spelling(o)| > 0 && Spelling(o)[0] == '-'
  {
  }

  /** OptionAt reads only characters inside the prefix it recognises. */
  lemma OptionAtExtends(s: string, t: string)
    requires StartsWith(t, s) && OptionAt(s).Some?
    ensures OptionAt(t) == OptionAt(s)
  {
    assert t[..|s|] == s;
    assert forall k :: 0 <= k < |s| ==> t[k] == s[k];
  }

  /** Every token that starts with an option's spelling is read back as that option. */
  lemma OptionAtSpelling(o: MongodOption, t: string)
    requires StartsWith(t, Spelling(o))
    ensures OptionAt(t) == Some(o)
    ensures t[0] == '-'
  {
    OptionAtOwnSpelling(o);
    SpellingDash(o);
    OptionAtExtends(Spelling(o), t);
    assert t[0] == Spelling(o)[0];
  }

  /** Well-formed arguments with the same text are the same argument. */
  lemma RenderInjective(a: Arg, b: Arg)
    requires WellFormed(a) && WellFormed(b)
    requires Render(a) == Render(b)
    ensures a == b
  {
    if !a.Raw? {
      assert StartsWith(Render(a), Spelling(a.option));
      OptionAtSpelling(a.option, Render(a));
    }
    if !b.Raw? {
      assert StartsWith(Render(b), Spelling(b.option));
      OptionAtSpelling(b.option, Render(b));
    }
    if a.Valued? && b.Valued? {
      assert a.value == Render(a)[|Spelling(a.option)|..];
    }
  }

  /** A well-formed argument's text is among the rendered tokens exactly when the argument is in the list. */
  lemma RenderedMember(args: seq<Arg>, x: Arg)
    requires WellFormed(x)
    requires forall y :: y in args ==> WellFormed(y)
    ensures Render(x) in Rendered(args) <==> x in args
  {
    if x in args {
      var i :| 0 <= i < |args| && args[i] == x;
      assert Rendered(args)[i] == Render(x);
    }

    if Render(x) in Rendered(args) {
      var i :| 0 <= i < |args| && Rendered(args)[i] == Render(x);
      RenderInjective(args[i], x);
    }
  }

  lemma RenderedTail(args: seq<Arg>)
    requires |args| > 0
    ensures Rendered(args)[1..] == Rendered(args[1..])
  {
  }

  /** How often a value occurs in a non-empty sequence, counted from its head. */
  lemma CountFromHead<T>(s: seq<T>, v: T)
    requires |s| > 0
    ensures multiset(s)[v] == (if s[0] == v then 1 else 0) + multiset(s[1..])[v]
  {
    assert s == [s[0]] + s[1..];
  }

  /** A well-formed argument's text occurs among the rendered tokens as often as the argument occurs in the list. */
  lemma {:induction false} RenderedCount(args: seq<Arg>, x: Arg)
    requires WellFormed(x)
    requires forall y :: y in args ==> WellFormed(y)
    ensures multiset(Rendered(args))[Render(x)] == multiset(args)[x]
  {
    if |args| > 0 {
      RenderedCount(args[1..], x);
      RenderedTail(args);
      CountFromHead(args, x);
      CountFromHead(Rendered(args), Render(x));
      if Render(args[0]) == Render(x) {
        RenderInjective(args[0], x);
      }
    }
  }

  /** The text of a well-formed argument that does not give `o` does not start with the spelling of `o`. */
  lemma NoOptionInArg(x: Arg, o: MongodOption)
    requires WellFormed(x) && !Gives(x, o)
    ensures !StartsWith(Render(x), Spelling(o))
  {
    var t := Render(x);
    if StartsWith(t, Spelling(o)) {
      OptionAtSpelling(o, t);
      if !x.Raw? {
        assert StartsWith(t, Spelling(x.option)) by {
          assert t[..|Spelling(x.option)|] == Spelling(x.option);
        }
        OptionAtSpelling(x.option, t);
      }
      assert false;
    }
  }

  /** No token rendered from well-formed arguments none of which gives `o` starts with the spelling of `o`. */
  lemma NoOptionToken(args: seq<Arg>, o: MongodOption, t: string)
    requires forall x :: x in args ==> WellFormed(x) && !Gives(x, o)
    requires t in Rendered(args)
    ensures !StartsWith(t, Spelling(o))
  {
    var i :| 0 <= i < |args| && Rendered(args)[i] == t;
    NoOptionInArg(args[i], o);
  }

  /** The argument `a` gives the option `o`, with or without a value. */
  predicate Gives(a: Arg, o: MongodOption)
  {
    !a.Raw? && a.option == o
  }

  // ---------------------------------------------------------------------------
  // Paths

  function FullDataDir(snapInstall: bool): string
  {
    if snapInstall then MongodbCommonDir + DataDir else DataDir
  }

  function FullConfDir(snapInstall: bool): string
  {
    if snapInstall then MongodbSnapDataDir + ConfDir else ConfDir
  }

  /** The data and configuration directories carry the snap prefixes exactly for a snap install. */
  lemma SnapPrefixes(snapInstall: bool)
    ensures StartsWith(FullDataDir(snapInstall), MongodbCommonDir) <==> snapInstall
    ensures StartsWith(FullConfDir(snapInstall), MongodbSnapDataDir) <==> snapInstall
    ensures EndsWith(FullDataDir(snapInstall), DataDir) && EndsWith(FullConfDir(snapInstall), ConfDir)
  {
    var d, c := FullDataDir(snapInstall), FullConfDir(snapInstall);
    if snapInstall {
      assert d[..|MongodbCommonDir|] == MongodbCommonDir;
      assert c[..|MongodbSnapDataDir|] == MongodbSnapDataDir;
      assert d[|d| - |DataDir|..] == DataDir;
      assert c[|c| - |ConfDir|..] == ConfDir;
    }
  }

  /** A file of the configuration directory. */
  function ConfFile(snapInstall: bool, file: string): string
  {
    FullConfDir(snapInstall) + "/" + file
  }

  /** Configuration files lie under the snap's data directory exactly for a snap install. */
  lemma ConfFilePrefix(snapInstall: bool, file: string)
    ensures StartsWith(ConfFile(snapInstall, file), FullConfDir(snapInstall) + "/")
    ensures StartsWith(ConfFile(snapInstall, file), MongodbSnapDataDir) <==> snapInstall
  {
    var p := ConfFile(snapInstall, file);
    var dir := FullConfDir(snapInstall) + "/";
    assert p[..|dir|] == dir;
    if snapInstall {
      assert p[..|MongodbSnapDataDir|] == dir[..|MongodbSnapDataDir|];
    } else {
      assert p[1] == 'e' != MongodbSnapDataDir[1];
    }
  }

  /** _get_logging_options: logs go to syslog, so mongod gets no log-path option. */
  function LoggingOptions(snapInstall: bool): (r: string)
    ensures r == ""
  {
    if LogToSyslog then ""
    else if snapInstall then Spelling(LogPath) + LogDir + "/" + MongodbLogFilename
    else ""
  }

  // ---------------------------------------------------------------------------
  // get_mongod_args

  // The segments of the mongod argument list, in the order the source emits them.

  function BaseArgs(config: MongoConfig, settings: Settings, snapInstall: bool): seq<Arg>
  {
    [ Flag(BindIpAll),
      Valued(ReplSet, config.replset),
      Valued(DbPath, FullDataDir(snapInstall)),
      Valued(Port, Decimal(settings.mongodbPort)),
      Valued(AuditDestination, "syslog"),
      Valued(AuditFormat, settings.auditFormat),
      Raw(LoggingOptions(snapInstall)) ]
  }

  function KeyFileAuthArgs(confDir: string): seq<Arg>
  {
    [ Valued(ClusterAuthMode, "keyFile"),
      Valued(KeyFileOption, confDir + "/" + KeyFile) ]
  }

  function ExternalTlsArgs(confDir: string): seq<Arg>
  {
    [ Valued(TlsCAFile, confDir + "/" + TlsExtCaFile),
      Valued(TlsCertificateKeyFile, confDir + "/" + TlsExtPemFile),
      Valued(TlsMode, "preferTLS"),
      Valued(TlsDisabledProtocols, "TLS1_0,TLS1_1") ]
  }

  function InternalTlsArgs(confDir: string): seq<Arg>
  {
    [ Valued(ClusterAuthMode, "x509"),
      Flag(TlsAllowInvalidCertificates),
      Valued(TlsClusterCAFile, confDir + "/" + TlsIntCaFile),
      Valued(TlsClusterFile, confDir + "/" + TlsIntPemFile) ]
  }

  /** Eight consecutive segments add up their lengths and end with the last one. */
  lemma SegmentsShape(base: seq<Arg>, a: seq<Arg>, k: seq<Arg>, e: seq<Arg>, i: seq<Arg>,
                      c: seq<Arg>, s: seq<Arg>, n: seq<Arg>)
    requires |n| == 1
    ensures var all := base + a + k + e + i + c + s + n;
      && |all| == |base| + |a| + |k| + |e| + |i| + |c| + |s| + 1
      && all[|all| - 1] == n[0]
  {
  }

  /**
   * The arguments get_mongod_args joins into the mongod command line: the
   * seven base arguments, then each optional segment under its condition in
   * the source's order, then the newline. Key-file and internal-TLS
   * authentication exclude each other, so the list has 8 to 19 arguments.
   */
  function MongodArgs(config: MongoConfig, settings: Settings, auth: bool, snapInstall: bool, role: string): (args: seq<Arg>)
    ensures |args| >= 8
    ensures args[|args| - 1] == Raw("\n")
  {
    var confDir := FullConfDir(snapInstall);
    SegmentsShape(BaseArgs(config, settings, snapInstall),
                  if auth then [Flag(Auth)] else [],
                  if auth && !config.tlsInternal then KeyFileAuthArgs(confDir) else [],
                  if config.tlsExternal then ExternalTlsArgs(confDir) else [],
                  if config.tlsInternal && config.tlsExternal then InternalTlsArgs(confDir) else [],
                  if role == settings.configServerRole then [Flag(ConfigSvr)] else [],
                  if role == settings.shardRole then [Flag(ShardSvr)] else [],
                  [Raw("\n")]);
    BaseArgs(config, settings, snapInstall)
    + (if auth then [Flag(Auth)] else [])
    + (if auth && !config.tlsInternal then KeyFileAuthArgs(confDir) else [])
    + (if config.tlsExternal then ExternalTlsArgs(confDir) else [])
    + (if config.tlsInternal && config.tlsExternal then InternalTlsArgs(confDir) else [])
    + (if role == settings.configServerRole then [Flag(ConfigSvr)] else [])
    + (if role == settings.shardRole then [Flag(ShardSvr)] else [])
    + [Raw("\n")]
  }

  // What each segment renders to, in the source's own spelling.

  lemma BaseRendered(config: MongoConfig, settings: Settings, snapInstall: bool)
    ensures Rendered(BaseArgs(config, settings, snapInstall)) ==
      [ "--bind_ip_all",
        "--replSet=" + config.replset,
        "--dbpath=" + FullDataDir(snapInstall),
        "--port=" + Decimal(settings.mongodbPort),
        "--auditDestination=" + "syslog",
        "--auditFormat=" + settings.auditFormat,
        LoggingOptions(snapInstall) ]
  {
    assert Rendered(BaseArgs(config, settings, snapInstall))[0] == "--bind_ip_all";
  }

  lemma KeyFileAuthRendered(confDir: string)
    ensures Rendered(KeyFileAuthArgs(confDir)) ==
      ["--clusterAuthMode=" + "keyFile", "--keyFile=" + (confDir + "/" + KeyFile)]
  {
  }

  lemma ExternalTlsRendered(confDir: string)
    ensures Rendered(ExternalTlsArgs(confDir)) ==
      [ "--tlsCAFile=" + (confDir + "/" + TlsExtCaFile),
        "--tlsCertificateKeyFile=" + (confDir + "/" + TlsExtPemFile),
        "--tlsMode=" + "preferTLS",
        "--tlsDisabledProtocols=" + "TLS1_0,TLS1_1" ]
  {
  }

  lemma InternalTlsRendered(confDir: string)
    ensures Rendered(InternalTlsArgs(confDir)) ==
      [ "--clusterAuthMode=" + "x509",
        "--tlsAllowInvalidCertificates",
        "--tlsClusterCAFile=" + (confDir + "/" + TlsIntCaFile),
        "--tlsClusterFile=" + (confDir + "/" + TlsIntPemFile) ]
  {
    assert Rendered(InternalTlsArgs(confDir))[1] == "--tlsAllowInvalidCertificates";
  }

  /** The command line get_mongod_args returns: its arguments joined with single spaces. */
  function MongodLine(config: MongoConfig, settings: Settings, auth: bool, snapInstall: bool, role: string): string
  {
    Join(Rendered(MongodArgs(config, settings, auth, snapInstall, role)), " ")
  }

  /**
   * get_mongod_args: grows the argument list step by step, as the source
   * does, and joins the rendered arguments.
   */
  method GetMongodArgs(config: MongoConfig, settings: Settings, auth: bool, snapInstall: bool, role: string)
    returns (line: string)
    ensures line == MongodLine(config, settings, auth, snapInstall, role)
  {
    var fullDataDir := if snapInstall then MongodbCommonDir + DataDir else DataDir;
    var fullConfDir := if snapInstall then MongodbSnapDataDir + ConfDir else ConfDir;
    var loggingOptions := LoggingOptions(snapInstall);
    var cmd := [
      Flag(BindIpAll),
      Valued(ReplSet, config.replset),
      Valued(DbPath, fullDataDir),
      Valued(Port, Decimal(settings.mongodbPort)),
      Valued(AuditDestination, "syslog"),
      Valued(AuditFormat, settings.auditFormat),
      Raw(loggingOptions)
    ];
    ghost var expected := BaseArgs(config, settings, snapInstall);
    assert cmd == expected;
    assert fullConfDir == FullConfDir(snapInstall);
    if auth {
      cmd := cmd + [Flag(Auth)];
    }
    expected := expected + (if auth then [Flag(Auth)] else []);
    assert cmd == expected;
    if auth && !config.tlsInternal {
      cmd := cmd + [
        Valued(ClusterAuthMode, "keyFile"),
        Valued(KeyFileOption, fullConfDir + "/" + KeyFile)
      ];
    }
    expected := expected + (if auth && !config.tlsInternal then KeyFileAuthArgs(fullConfDir) else []);
    assert cmd == expected;
    if config.tlsExternal {
      cmd := cmd + [
        Valued(TlsCAFile, fullConfDir + "/" + TlsExtCaFile),
        Valued(TlsCertificateKeyFile, fullConfDir + "/" + TlsExtPemFile),
        Valued(TlsMode, "preferTLS"),
        Valued(TlsDisabledProtocols, "TLS1_0,TLS1_1")
      ];
    }
    expected := expected + (if config.tlsExternal then ExternalTlsArgs(fullConfDir) else []);
    assert cmd == expected;
    if config.tlsInternal && config.tlsExternal {
      cmd := cmd + [
        Valued(ClusterAuthMode, "x509"),
        Flag(TlsAllowInvalidCertificates),
        Valued(TlsClusterCAFile, fullConfDir + "/" + TlsIntCaFile),
        Valued(TlsClusterFile, fullConfDir + "/" + TlsIntPemFile)
      ];
    }
    expected := expected + (if config.tlsInternal && config.tlsExternal then InternalTlsArgs(fullConfDir) else []);
    assert cmd == expected;
    if role == settings.configServerRole {
      cmd := cmd + [Flag(ConfigSvr)];
    }
    expected := expected + (if role == settings.configServerRole then [Flag(ConfigSvr)] else []);
    assert cmd == expected;
    if role == settings.shardRole {
      cmd := cmd + [Flag(ShardSvr)];
    }
    expected := expected + (if role == settings.shardRole then [Flag(ShardSvr)] else []);
    assert cmd == expected;
    cmd := cmd + [Raw("\n")];
    expected := expected + [Raw("\n")];
    assert expected == MongodArgs(config, settings, auth, snapInstall, role);
    line := Join(Rendered(cmd), " ");
  }
  // ---------------------------------------------------------------------------
  // What get_mongod_args promises

  /**
   * An argument is in the mongod list exactly when it belongs to one of the
   * segments whose condition holds.
   */
  lemma InMongodArgs(x: Arg, config: MongoConfig, settings: Settings, auth: bool, snapInstall: bool, role: string)
    ensures x in MongodArgs(config, settings, auth, snapInstall, role) <==>
      x in BaseArgs(config, settings, snapInstall)
      || (auth && x == Flag(Auth))
      || (auth && !config.tlsInternal && x in KeyFileAuthArgs(FullConfDir(snapInstall)))
      || (config.tlsExternal && x in ExternalTlsArgs(FullConfDir(snapInstall)))
      || (config.tlsInternal && config.tlsExternal && x in InternalTlsArgs(FullConfDir(snapInstall)))
      || (role == settings.configServerRole && x == Flag(ConfigSvr))
      || (role == settings.shardRole && x == Flag(ShardSvr))
      || x == Raw("\n")
  {
  }

  // Which options each segment gives, one segment at a time.

  lemma BaseGives(config: MongoConfig, settings: Settings, snapInstall: bool, x: Arg)
    requires x in BaseArgs(config, settings, snapInstall)
    ensures !x.Raw? ==> x.option in {BindIpAll, ReplSet, DbPath, Port, AuditDestination, AuditFormat}
  {
  }

  lemma KeyFileAuthGives(confDir: string, x: Arg)
    requires x in KeyFileAuthArgs(confDir)
    ensures x == Valued(ClusterAuthMode, "keyFile") || x == Valued(KeyFileOption, confDir + "/" + KeyFile)
  {
  }

  lemma ExternalTlsGives(confDir: string, x: Arg)
    requires x in ExternalTlsArgs(confDir)
    ensures !x.Raw? && x.option in {TlsCAFile, TlsCertificateKeyFile, TlsMode, TlsDisabledProtocols}
    ensures Gives(x, TlsCAFile) ==> x == Valued(TlsCAFile, confDir + "/" + TlsExtCaFile)
    ensures Gives(x, TlsCertificateKeyFile) ==> x == Valued(TlsCertificateKeyFile, confDir + "/" + TlsExtPemFile)
  {
  }

  lemma InternalTlsGives(confDir: string, x: Arg)
    requires x in InternalTlsArgs(confDir)
    ensures !x.Raw? && x.option in {ClusterAuthMode, TlsAllowInvalidCertificates, TlsClusterCAFile, TlsClusterFile}
    ensures Gives(x, ClusterAuthMode) ==> x == Valued(ClusterAuthMode, "x509")
    ensures Gives(x, TlsClusterCAFile) ==> x == Valued(TlsClusterCAFile, confDir + "/" + TlsIntCaFile)
    ensures Gives(x, TlsClusterFile) ==> x == Valued(TlsClusterFile, confDir + "/" + TlsIntPemFile)
  {
  }

  /** The configuration file an option names, for the options whose value is one. */
  function ConfFileOf(o: MongodOption): Option<string>
  {
    match o
    case KeyFileOption => Some(KeyFile)
    case TlsCAFile => Some(TlsExtCaFile)
    case TlsCertificateKeyFile => Some(TlsExtPemFile)
    case TlsClusterCAFile => Some(TlsIntCaFile)
    case TlsClusterFile => Some(TlsIntPemFile)
    case _ => None
  }

  /** Where any argument of the mongod list comes from, by the option it gives. */
  lemma MongodGives(config: MongoConfig, settings: Settings, auth: bool, snapInstall: bool, role: string, x: Arg)
    requires x in MongodArgs(config, settings, auth, snapInstall, role)
    ensures Gives(x, Auth) ==> auth
    ensures Gives(x, KeyFileOption) ==> auth && !config.tlsInternal && x == Valued(KeyFileOption, ConfFile(snapInstall, KeyFile))
    ensures Gives(x, ClusterAuthMode) ==>
      (auth && !config.tlsInternal && x == Valued(ClusterAuthMode, "keyFile"))
      || (config.tlsInternal && config.tlsExternal && x == Valued(ClusterAuthMode, "x509"))
    ensures Gives(x, TlsCAFile) || Gives(x, TlsCertificateKeyFile) || Gives(x, TlsMode) || Gives(x, TlsDisabledProtocols)
      ==> config.tlsExternal
    ensures Gives(x, TlsAllowInvalidCertificates) || Gives(x, TlsClusterCAFile) || Gives(x, TlsClusterFile)
      ==> config.tlsInternal && config.tlsExternal
    ensures Gives(x, ConfigSvr) ==> role == settings.configServerRole
    ensures Gives(x, ShardSvr) ==> role == settings.shardRole
  {
    var confDir := FullConfDir(snapInstall);
    InMongodArgs(x, config, settings, auth, snapInstall, role);
    if x in BaseArgs(config, settings, snapInstall) {
      BaseGives(config, settings, snapInstall, x);
    }
    if x in KeyFileAuthArgs(confDir) {
      KeyFileAuthGives(confDir, x);
    }
    if x in ExternalTlsArgs(confDir) {
      ExternalTlsGives(confDir, x);
    }
    if x in InternalTlsArgs(confDir) {
      InternalTlsGives(confDir, x);
    }
  }

  // Every segment is well formed and sets no log path.

  lemma BaseWellFormed(config: MongoConfig, settings: Settings, snapInstall: bool)
    ensures forall y :: y in BaseArgs(config, settings, snapInstall) ==> WellFormed(y) && !Gives(y, LogPath)
  {
  }

  lemma OptionSegmentsWellFormed(confDir: string)
    ensures forall y :: y in KeyFileAuthArgs(confDir) ==> WellFormed(y) && !Gives(y, LogPath)
    ensures forall y :: y in ExternalTlsArgs(confDir) ==> WellFormed(y) && !Gives(y, LogPath)
    ensures forall y :: y in InternalTlsArgs(confDir) ==> WellFormed(y) && !Gives(y, LogPath)
  {
  }

  /**
   * Every argument of the mongod list is well formed and none sets a log
   * path: the logging option, which is raw text, is empty.
   */
  lemma MongodArgWellFormed(config: MongoConfig, settings: Settings, auth: bool, snapInstall: bool, role: string, x: Arg)
    requires x in MongodArgs(config, settings, auth, snapInstall, role)
    ensures WellFormed(x)
    ensures !Gives(x, LogPath)
  {
    InMongodArgs(x, config, settings, auth, snapInstall, role);
    BaseWellFormed(config, settings, snapInstall);
    OptionSegmentsWellFormed(FullConfDir(snapInstall));
  }

  lemma MongodWellFormed(config: MongoConfig, settings: Settings, auth: bool, snapInstall: bool, role: string)
    ensures forall x :: x in MongodArgs(config, settings, auth, snapInstall, role) ==> WellFormed(x) && !Gives(x, LogPath)
  {
    forall x | x in MongodArgs(config, settings, auth, snapInstall, role) {
      MongodArgWellFormed(config, settings, auth, snapInstall, role, x);
    }
  }

  /** Whatever starts like a log path is read as the log-path option. */
  lemma LogPathPrefix(t: string)
    requires StartsWith(t, "--logpath")
    ensures t[0] == '-' && OptionAt(t) == Some(LogPath)
  {
    var p := "--logpath";
    assert t[..9] == p;
    assert t[0] == p[0] && t[2] == p[2];
  }

  /** A token read from well-formed arguments none of which sets a log path does not set one. */
  lemma NoLogPathToken(args: seq<Arg>, t: string)
    requires forall x :: x in args ==> WellFormed(x) && !Gives(x, LogPath)
    requires t in Rendered(args)
    ensures !StartsWith(t, "--logpath")
  {
    var i :| 0 <= i < |args| && Rendered(args)[i] == t;
    var x := args[i];
    assert WellFormed(x) && !Gives(x, LogPath);
    if StartsWith(t, "--logpath") {
      LogPathPrefix(t);
      if !x.Raw? {
        assert StartsWith(t, Spelling(x.option));
        OptionAtSpelling(x.option, t);
      }
      assert false;
    }
  }

  /**
   * No token of the mongod command line sets a log path: with logging to
   * syslog the logging option stays empty.
   */
  lemma MongodNoLogPath(config: MongoConfig, settings: Settings, auth: bool, snapInstall: bool, role: string)
    ensures forall t :: t in Rendered(MongodArgs(config, settings, auth, snapInstall, role)) ==> !StartsWith(t, "--logpath")
  {
    MongodWellFormed(config, settings, auth, snapInstall, role);
    forall t | t in Rendered(MongodArgs(config, settings, auth, snapInstall, role)) {
      NoLogPathToken(MongodArgs(config, settings, auth, snapInstall, role), t);
    }
  }

  /**
   * Every option that names a configuration file names it inside the
   * configuration directory of the install kind, which lies under the snap's
   * data directory exactly for a snap install.
   */
  lemma MongodConfFiles(config: MongoConfig, settings: Settings, auth: bool, snapInstall: bool, role: string, x: Arg)
    requires x in MongodArgs(config, settings, auth, snapInstall, role)
    requires x.Valued? && ConfFileOf(x.option).Some?
    ensures x.value == ConfFile(snapInstall, ConfFileOf(x.option).value)
    ensures StartsWith(x.value, MongodbSnapDataDir) <==> snapInstall
  {
    var confDir := FullConfDir(snapInstall);
    InMongodArgs(x, config, settings, auth, snapInstall, role);
    if x in BaseArgs(config, settings, snapInstall) {
      BaseGives(config, settings, snapInstall, x);
    }
    if x in KeyFileAuthArgs(confDir) {
      KeyFileAuthGives(confDir, x);
    }
    if x in ExternalTlsArgs(confDir) {
      ExternalTlsGives(confDir, x);
    }
    if x in InternalTlsArgs(confDir) {
      InternalTlsGives(confDir, x);
    }
    ConfFilePrefix(snapInstall, ConfFileOf(x.option).value);
  }

  /**
   * The mongod list always opens with the seven base arguments (bind, replica
   * set, data path, port, the two audit settings, the logging option) and
   * always closes with the newline token.
   */
  lemma MongodShape(config: MongoConfig, settings: Settings, auth: bool, snapInstall: bool, role: string)
    ensures |MongodArgs(config, settings, auth, snapInstall, role)| >= 8
    ensures MongodArgs(config, settings, auth, snapInstall, role)[..7] == BaseArgs(config, settings, snapInstall)
    ensures MongodArgs(config, settings, auth, snapInstall, role)[|MongodArgs(config, settings, auth, snapInstall, role)| - 1] == Raw("\n")
  {
  }

  /**
   * The command line starts with `--bind_ip_all` and ends with the newline;
   * its third token is the data path, under the snap's common directory
   * exactly for a snap install.
   */
  lemma MongodLineBounds(config: MongoConfig, settings: Settings, auth: bool, snapInstall: bool, role: string)
    ensures StartsWith(MongodLine(config, settings, auth, snapInstall, role), "--bind_ip_all")
    ensures EndsWith(MongodLine(config, settings, auth, snapInstall, role), "\n")
    ensures Rendered(MongodArgs(config, settings, auth, snapInstall, role))[2] == "--dbpath=" + FullDataDir(snapInstall)
    ensures StartsWith(FullDataDir(snapInstall), MongodbCommonDir) <==> snapInstall
  {
    MongodLineEnds(config, settings, auth, snapInstall, role);
    MongodDbPathToken(config, settings, auth, snapInstall, role);
    SnapPrefixes(snapInstall);
  }

  lemma MongodLineEnds(config: MongoConfig, settings: Settings, auth: bool, snapInstall: bool, role: string)
    ensures StartsWith(MongodLine(config, settings, auth, snapInstall, role), "--bind_ip_all")
    ensures EndsWith(MongodLine(config, settings, auth, snapInstall, role), "\n")
  {
    var args := MongodArgs(config, settings, auth, snapInstall, role);
    var tokens := Rendered(args);
    MongodShape(config, settings, auth, snapInstall, role);
    assert args[0] == BaseArgs(config, settings, snapInstall)[0];
    assert tokens[0] == "--bind_ip_all";
    assert tokens[|tokens| - 1] == "\n";
    JoinBounds(tokens, " ");
  }

  lemma MongodDbPathToken(config: MongoConfig, settings: Settings, auth: bool, snapInstall: bool, role: string)
    ensures Rendered(MongodArgs(config, settings, auth, snapInstall, role))[2] == "--dbpath=" + FullDataDir(snapInstall)
  {
    var args := MongodArgs(config, settings, auth, snapInstall, role);
    MongodShape(config, settings, auth, snapInstall, role);
    assert args[2] == BaseArgs(config, settings, snapInstall)[2];
  }

  /**
   * `--configsvr` comes exactly with the config-server role and `--shardsvr`
   * exactly with the shard role; with distinct role names never both, and the
   * default role, when it is neither, gives neither.
   */
  lemma RoleFlags(config: MongoConfig, settings: Settings, auth: bool, snapInstall: bool, role: string)
    ensures Flag(ConfigSvr) in MongodArgs(config, settings, auth, snapInstall, role) <==> role == settings.configServerRole
    ensures Flag(ShardSvr) in MongodArgs(config, settings, auth, snapInstall, role) <==> role == settings.shardRole
    ensures settings.configServerRole != settings.shardRole ==>
      !(Flag(ConfigSvr) in MongodArgs(config, settings, auth, snapInstall, role)
        && Flag(ShardSvr) in MongodArgs(config, settings, auth, snapInstall, role))
    ensures role == DefaultRole && settings.configServerRole != DefaultRole && settings.shardRole != DefaultRole ==>
      forall x :: x in MongodArgs(config, settings, auth, snapInstall, role) ==> !Gives(x, ConfigSvr) && !Gives(x, ShardSvr)
  {
    InMongodArgs(Flag(ConfigSvr), config, settings, auth, snapInstall, role);
    InMongodArgs(Flag(ShardSvr), config, settings, auth, snapInstall, role);
    forall x | x in MongodArgs(config, settings, auth, snapInstall, role) {
      MongodGives(config, settings, auth, snapInstall, role, x);
    }
  }

  /**
   * Key-file cluster authentication and the key file come exactly with auth
   * and no internal TLS; x509 cluster authentication, the certificate check
   * waiver and the cluster certificate files exactly with both kinds of TLS.
   * The two modes never come together, and internal TLS without external TLS
   * gives no cluster authentication at all.
   */
  lemma ClusterAuthModes(config: MongoConfig, settings: Settings, auth: bool, snapInstall: bool, role: string)
    ensures Valued(ClusterAuthMode, "keyFile") in MongodArgs(config, settings, auth, snapInstall, role) <==> auth && !config.tlsInternal
    ensures Valued(KeyFileOption, ConfFile(snapInstall, KeyFile)) in MongodArgs(config, settings, auth, snapInstall, role) <==> auth && !config.tlsInternal
    ensures Valued(ClusterAuthMode, "x509") in MongodArgs(config, settings, auth, snapInstall, role) <==> config.tlsInternal && config.tlsExternal
    ensures Flag(TlsAllowInvalidCertificates) in MongodArgs(config, settings, auth, snapInstall, role) <==> config.tlsInternal && config.tlsExternal
    ensures Valued(TlsClusterCAFile, ConfFile(snapInstall, TlsIntCaFile)) in MongodArgs(config, settings, auth, snapInstall, role) <==> config.tlsInternal && config.tlsExternal
    ensures Valued(TlsClusterFile, ConfFile(snapInstall, TlsIntPemFile)) in MongodArgs(config, settings, auth, snapInstall, role) <==> config.tlsInternal && config.tlsExternal
    ensures !(Valued(ClusterAuthMode, "keyFile") in MongodArgs(config, settings, auth, snapInstall, role)
              && Valued(ClusterAuthMode, "x509") in MongodArgs(config, settings, auth, snapInstall, role))
    ensures config.tlsInternal && !config.tlsExternal ==>
      forall x :: x in MongodArgs(config, settings, auth, snapInstall, role) ==> !Gives(x, ClusterAuthMode) && !Gives(x, KeyFileOption)
  {
    var confDir := FullConfDir(snapInstall);
    InMongodArgs(Valued(ClusterAuthMode, "keyFile"), config, settings, auth, snapInstall, role);
    InMongodArgs(Valued(KeyFileOption, ConfFile(snapInstall, KeyFile)), config, settings, auth, snapInstall, role);
    InMongodArgs(Valued(ClusterAuthMode, "x509"), config, settings, auth, snapInstall, role);
    InMongodArgs(Flag(TlsAllowInvalidCertificates), config, settings, auth, snapInstall, role);
    InMongodArgs(Valued(TlsClusterCAFile, ConfFile(snapInstall, TlsIntCaFile)), config, settings, auth, snapInstall, role);
    InMongodArgs(Valued(TlsClusterFile, ConfFile(snapInstall, TlsIntPemFile)), config, settings, auth, snapInstall, role);
    forall x | x in MongodArgs(config, settings, auth, snapInstall, role) {
      MongodGives(config, settings, auth, snapInstall, role, x);
    }
  }

  /** `--auth` comes exactly with auth, and the four external TLS arguments exactly with external TLS. */
  lemma AuthAndExternalTls(config: MongoConfig, settings: Settings, auth: bool, snapInstall: bool, role: string)
    ensures Flag(Auth) in MongodArgs(config, settings, auth, snapInstall, role) <==> auth
    ensures Valued(TlsCAFile, ConfFile(snapInstall, TlsExtCaFile)) in MongodArgs(config, settings, auth, snapInstall, role) <==> config.tlsExternal
    ensures Valued(TlsCertificateKeyFile, ConfFile(snapInstall, TlsExtPemFile)) in MongodArgs(config, settings, auth, snapInstall, role) <==> config.tlsExternal
    ensures Valued(TlsMode, "preferTLS") in MongodArgs(config, settings, auth, snapInstall, role) <==> config.tlsExternal
    ensures Valued(TlsDisabledProtocols, "TLS1_0,TLS1_1") in MongodArgs(config, settings, auth, snapInstall, role) <==> config.tlsExternal
  {
    var args := MongodArgs(config, settings, auth, snapInstall, role);
    var tokens := [
      Flag(Auth),
      Valued(TlsCAFile, ConfFile(snapInstall, TlsExtCaFile)),
      Valued(TlsCertificateKeyFile, ConfFile(snapInstall, TlsExtPemFile)),
      Valued(TlsMode, "preferTLS"),
      Valued(TlsDisabledProtocols, "TLS1_0,TLS1_1")
    ];
    forall x | x in tokens && x in args {
      MongodGives(config, settings, auth, snapInstall, role, x);
    }
    if auth {
      InMongodArgs(Flag(Auth), config, settings, auth, snapInstall, role);
    }
    if config.tlsExternal {
      forall x | x in tokens[1..] {
        InMongodArgs(x, config, settings, auth, snapInstall, role);
      }
    }
  }

  // The same rules over the tokens of the command line. Well-formed arguments
  // render to distinct tokens, so each rule carries over from the arguments.

  // The fixed-valued arguments spelt out as whole tokens.

  lemma KeyFileModeToken()
    ensures Render(Valued(ClusterAuthMode, "keyFile")) == "--clusterAuthMode=keyFile"
  {
  }

  lemma X509ModeToken()
    ensures Render(Valued(ClusterAuthMode, "x509")) == "--clusterAuthMode=x509"
  {
  }

  lemma KeyFileToken(snapInstall: bool)
    ensures Render(Valued(KeyFileOption, ConfFile(snapInstall, KeyFile))) == "--keyFile=" + ConfFile(snapInstall, KeyFile)
  {
  }

  lemma RoleTokens()
    ensures Render(Flag(ConfigSvr)) == "--configsvr" && Render(Flag(ShardSvr)) == "--shardsvr"
  {
  }

  lemma InternalTlsFileTokens(snapInstall: bool)
    ensures Render(Flag(TlsAllowInvalidCertificates)) == "--tlsAllowInvalidCertificates"
    ensures Render(Valued(TlsClusterCAFile, ConfFile(snapInstall, TlsIntCaFile)))
      == "--tlsClusterCAFile=" + ConfFile(snapInstall, TlsIntCaFile)
    ensures Render(Valued(TlsClusterFile, ConfFile(snapInstall, TlsIntPemFile)))
      == "--tlsClusterFile=" + ConfFile(snapInstall, TlsIntPemFile)
  {
  }

  lemma ExternalTlsFileTokens(snapInstall: bool)
    ensures Render(Flag(Auth)) == "--auth"
    ensures Render(Valued(TlsCAFile, ConfFile(snapInstall, TlsExtCaFile)))
      == "--tlsCAFile=" + ConfFile(snapInstall, TlsExtCaFile)
    ensures Render(Valued(TlsCertificateKeyFile, ConfFile(snapInstall, TlsExtPemFile)))
      == "--tlsCertificateKeyFile=" + ConfFile(snapInstall, TlsExtPemFile)
  {
  }

  lemma TlsModeToken()
    ensures Render(Valued(TlsMode, "preferTLS")) == "--tlsMode=preferTLS"
  {
  }

  lemma TlsProtocolsToken()
    ensures Render(Valued(TlsDisabledProtocols, "TLS1_0,TLS1_1")) == "--tlsDisabledProtocols=TLS1_0,TLS1_1"
  {
  }

  /** `--configsvr` iff the config-server role, `--shardsvr` iff the shard role, never both for distinct role names. */
  lemma RoleFlagTokens(config: MongoConfig, settings: Settings, auth: bool, snapInstall: bool, role: string)
    ensures "--configsvr" in Rendered(MongodArgs(config, settings, auth, snapInstall, role))
      <==> role == settings.configServerRole
    ensures "--shardsvr" in Rendered(MongodArgs(config, settings, auth, snapInstall, role))
      <==> role == settings.shardRole
    ensures settings.configServerRole != settings.shardRole ==>
      !("--configsvr" in Rendered(MongodArgs(config, settings, auth, snapInstall, role))
        && "--shardsvr" in Rendered(MongodArgs(config, settings, auth, snapInstall, role)))
  {
    RoleFlags(config, settings, auth, snapInstall, role);
    MongodWellFormed(config, settings, auth, snapInstall, role);
    RoleTokens();
    RenderedMember(MongodArgs(config, settings, auth, snapInstall, role), Flag(ConfigSvr));
    RenderedMember(MongodArgs(config, settings, auth, snapInstall, role), Flag(ShardSvr));
  }

  /** Key-file cluster authentication and the key file iff auth and no internal TLS. */
  lemma KeyFileAuthTokens(config: MongoConfig, settings: Settings, auth: bool, snapInstall: bool, role: string)
    ensures "--clusterAuthMode=keyFile" in Rendered(MongodArgs(config, settings, auth, snapInstall, role))
      <==> auth && !config.tlsInternal
    ensures "--keyFile=" + ConfFile(snapInstall, KeyFile) in Rendered(MongodArgs(config, settings, auth, snapInstall, role))
      <==> auth && !config.tlsInternal
  {
    var args := MongodArgs(config, settings, auth, snapInstall, role);
    ClusterAuthModes(config, settings, auth, snapInstall, role);
    MongodWellFormed(config, settings, auth, snapInstall, role);
    KeyFileModeToken();
    RenderedMember(args, Valued(ClusterAuthMode, "keyFile"));
    RenderedMember(args, Valued(KeyFileOption, ConfFile(snapInstall, KeyFile)));
  }

  /** x509 cluster authentication iff both kinds of TLS, so never together with key-file mode. */
  lemma X509ModeTokens(config: MongoConfig, settings: Settings, auth: bool, snapInstall: bool, role: string)
    ensures "--clusterAuthMode=x509" in Rendered(MongodArgs(config, settings, auth, snapInstall, role))
      <==> config.tlsInternal && config.tlsExternal
    ensures !("--clusterAuthMode=keyFile" in Rendered(MongodArgs(config, settings, auth, snapInstall, role))
              && "--clusterAuthMode=x509" in Rendered(MongodArgs(config, settings, auth, snapInstall, role)))
  {
    ClusterAuthModes(config, settings, auth, snapInstall, role);
    MongodWellFormed(config, settings, auth, snapInstall, role);
    KeyFileAuthTokens(config, settings, auth, snapInstall, role);
    X509ModeToken();
    RenderedMember(MongodArgs(config, settings, auth, snapInstall, role), Valued(ClusterAuthMode, "x509"));
  }

  /** The certificate waiver and the two cluster files iff both kinds of TLS. */
  lemma InternalTlsTokens(config: MongoConfig, settings: Settings, auth: bool, snapInstall: bool, role: string)
    ensures "--tlsAllowInvalidCertificates" in Rendered(MongodArgs(config, settings, auth, snapInstall, role))
      <==> config.tlsInternal && config.tlsExternal
    ensures "--tlsClusterCAFile=" + ConfFile(snapInstall, TlsIntCaFile) in Rendered(MongodArgs(config, settings, auth, snapInstall, role))
      <==> config.tlsInternal && config.tlsExternal
    ensures "--tlsClusterFile=" + ConfFile(snapInstall, TlsIntPemFile) in Rendered(MongodArgs(config, settings, auth, snapInstall, role))
      <==> config.tlsInternal && config.tlsExternal
  {
    var args := MongodArgs(config, settings, auth, snapInstall, role);
    ClusterAuthModes(config, settings, auth, snapInstall, role);
    MongodWellFormed(config, settings, auth, snapInstall, role);
    InternalTlsFileTokens(snapInstall);
    RenderedMember(args, Flag(TlsAllowInvalidCertificates));
    RenderedMember(args, Valued(TlsClusterCAFile, ConfFile(snapInstall, TlsIntCaFile)));
    RenderedMember(args, Valued(TlsClusterFile, ConfFile(snapInstall, TlsIntPemFile)));
  }

  /** Internal TLS without external TLS gives no cluster-authentication and no key-file token at all. */
  lemma NoClusterAuthTokens(config: MongoConfig, settings: Settings, auth: bool, snapInstall: bool, role: string)
    requires config.tlsInternal && !config.tlsExternal
    ensures forall t :: t in Rendered(MongodArgs(config, settings, auth, snapInstall, role)) ==>
      !StartsWith(t, "--clusterAuthMode=") && !StartsWith(t, "--keyFile=")
  {
    var args := MongodArgs(config, settings, auth, snapInstall, role);
    ClusterAuthModes(config, settings, auth, snapInstall, role);
    MongodWellFormed(config, settings, auth, snapInstall, role);
    forall t | t in Rendered(args)
      ensures !StartsWith(t, "--clusterAuthMode=") && !StartsWith(t, "--keyFile=")
    {
      NoOptionToken(args, ClusterAuthMode, t);
      NoOptionToken(args, KeyFileOption, t);
    }
  }

  /** With auth and no internal TLS, key-file mode and the key file each come exactly once. */
  lemma KeyFileOnce(config: MongoConfig, settings: Settings, snapInstall: bool, role: string)
    requires !config.tlsInternal
    ensures multiset(Rendered(MongodArgs(config, settings, true, snapInstall, role)))["--clusterAuthMode=keyFile"] == 1
    ensures multiset(Rendered(MongodArgs(config, settings, true, snapInstall, role)))["--keyFile=" + ConfFile(snapInstall, KeyFile)] == 1
  {
    KeyFileModeToken();
    KeyFileToken(snapInstall);
    KeyFileTokenOnce(config, settings, snapInstall, role, Valued(ClusterAuthMode, "keyFile"));
    KeyFileTokenOnce(config, settings, snapInstall, role, Valued(KeyFileOption, ConfFile(snapInstall, KeyFile)));
  }

  lemma KeyFileTokenOnce(config: MongoConfig, settings: Settings, snapInstall: bool, role: string, x: Arg)
    requires !config.tlsInternal
    requires x in KeyFileAuthArgs(FullConfDir(snapInstall))
    ensures multiset(Rendered(MongodArgs(config, settings, true, snapInstall, role)))[Render(x)] == 1
  {
    MongodWellFormed(config, settings, true, snapInstall, role);
    KeyFileAuthGives(FullConfDir(snapInstall), x);
    KeyFileArgsOnce(config, settings, snapInstall, role, x);
    RenderedCount(MongodArgs(config, settings, true, snapInstall, role), x);
  }

  /** An argument that only the third of eight consecutive segments holds, once, occurs once in their concatenation. */
  lemma OnceInThirdSegment(base: seq<Arg>, a: seq<Arg>, k: seq<Arg>, e: seq<Arg>, i: seq<Arg>,
                           c: seq<Arg>, s: seq<Arg>, n: seq<Arg>, x: Arg)
    requires x !in base && x !in a && x !in e && x !in i && x !in c && x !in s && x !in n
    requires multiset(k)[x] == 1
    ensures multiset(base + a + k + e + i + c + s + n)[x] == 1
  {
  }

  /** An argument of the key-file segment is in neither the base segment nor the external TLS segment, and once in its own. */
  lemma KeyFileArgsElsewhere(config: MongoConfig, settings: Settings, snapInstall: bool, x: Arg)
    requires x in KeyFileAuthArgs(FullConfDir(snapInstall))
    ensures x !in BaseArgs(config, settings, snapInstall)
    ensures x !in ExternalTlsArgs(FullConfDir(snapInstall))
    ensures multiset(KeyFileAuthArgs(FullConfDir(snapInstall)))[x] == 1
  {
    var confDir := FullConfDir(snapInstall);
    var k := KeyFileAuthArgs(confDir);
    KeyFileAuthGives(confDir, x);
    if x in BaseArgs(config, settings, snapInstall) {
      BaseGives(config, settings, snapInstall, x);
    }
    if x in ExternalTlsArgs(confDir) {
      ExternalTlsGives(confDir, x);
    }
    assert k == [k[0], k[1]] && k[0].option != k[1].option;
  }

  /** With auth and no internal TLS, the mongod list is made of these eight segments. */
  lemma KeyFileSegments(config: MongoConfig, settings: Settings, snapInstall: bool, role: string)
    requires !config.tlsInternal
    ensures MongodArgs(config, settings, true, snapInstall, role)
      == BaseArgs(config, settings, snapInstall) + [Flag(Auth)] + KeyFileAuthArgs(FullConfDir(snapInstall))
         + (if config.tlsExternal then ExternalTlsArgs(FullConfDir(snapInstall)) else []) + []
         + (if role == settings.configServerRole then [Flag(ConfigSvr)] else [])
         + (if role == settings.shardRole then [Flag(ShardSvr)] else [])
         + [Raw("\n")]
  {
  }

  /** With auth and no internal TLS, each argument of the key-file segment occurs once in the mongod list. */
  lemma KeyFileArgsOnce(config: MongoConfig, settings: Settings, snapInstall: bool, role: string, x: Arg)
    requires !config.tlsInternal
    requires x in KeyFileAuthArgs(FullConfDir(snapInstall))
    ensures multiset(MongodArgs(config, settings, true, snapInstall, role))[x] == 1
  {
    var confDir := FullConfDir(snapInstall);
    var e := if config.tlsExternal then ExternalTlsArgs(confDir) else [];
    var c := if role == settings.configServerRole then [Flag(ConfigSvr)] else [];
    var s := if role == settings.shardRole then [Flag(ShardSvr)] else [];
    KeyFileSegments(config, settings, snapInstall, role);
    KeyFileArgsElsewhere(config, settings, snapInstall, x);
    KeyFileAuthGives(confDir, x);
    OnceInThirdSegment(BaseArgs(config, settings, snapInstall), [Flag(Auth)], KeyFileAuthArgs(confDir), e, [], c, s,
                       [Raw("\n")], x);
  }

  /** `--auth` iff auth, and each of the four external TLS tokens iff external TLS. */
  lemma AuthAndExternalTlsTokens(config: MongoConfig, settings: Settings, auth: bool, snapInstall: bool, role: string)
    ensures "--auth" in Rendered(MongodArgs(config, settings, auth, snapInstall, role)) <==> auth
    ensures "--tlsCAFile=" + ConfFile(snapInstall, TlsExtCaFile) in Rendered(MongodArgs(config, settings, auth, snapInstall, role))
      <==> config.tlsExternal
    ensures "--tlsCertificateKeyFile=" + ConfFile(snapInstall, TlsExtPemFile) in Rendered(MongodArgs(config, settings, auth, snapInstall, role))
      <==> config.tlsExternal
    ensures "--tlsMode=preferTLS" in Rendered(MongodArgs(config, settings, auth, snapInstall, role)) <==> config.tlsExternal
    ensures "--tlsDisabledProtocols=TLS1_0,TLS1_1" in Rendered(MongodArgs(config, settings, auth, snapInstall, role))
      <==> config.tlsExternal
  {
    var args := MongodArgs(config, settings, auth, snapInstall, role);
    AuthAndExternalTls(config, settings, auth, snapInstall, role);
    MongodWellFormed(config, settings, auth, snapInstall, role);
    TlsModeToken();
    TlsProtocolsToken();
    ExternalTlsFileTokens(snapInstall);
    RenderedMember(args, Flag(Auth));
    RenderedMember(args, Valued(TlsCAFile, ConfFile(snapInstall, TlsExtCaFile)));
    RenderedMember(args, Valued(TlsCertificateKeyFile, ConfFile(snapInstall, TlsExtPemFile)));
    RenderedMember(args, Valued(TlsMode, "preferTLS"));
    RenderedMember(args, Valued(TlsDisabledProtocols, "TLS1_0,TLS1_1"));
  }

  // ---------------------------------------------------------------------------
  // get_mongos_args

  /**
   * Whether a configuration-server address was supplied, with Python's
   * truthiness: `None` and the empty string count as not supplied.
   */
  predicate Supplied(configServerDb: Option<string>)
  {
    configServerDb.Some? && configServerDb.value != ""
  }

  /** The five tokens get_mongos_args joins into the mongos command line. */
  function MongosTokens(config: MongoConfig, settings: Settings, snapInstall: bool, configServerDb: Option<string>): (tokens: seq<string>)
    ensures |tokens| == 5
    ensures forall i :: 0 <= i < 4 ==> StartsWith(tokens[i], "--")
    ensures tokens[4] == "\n"
  {
    var bindingIps := if Supplied(configServerDb) then "--bind_ip " + MongosSocket else "--bind_ip_all";
    var db := if Supplied(configServerDb) then configServerDb.value
              else config.replset + "/localhost:" + Decimal(settings.mongodbPort);
    [ bindingIps,
      "--configdb " + db,
      "--port " + Decimal(settings.mongosPort),
      "--keyFile=" + ConfFile(snapInstall, KeyFile),
      "\n" ]
  }

  /** get_mongos_args: the router's tokens joined with single spaces. */
  function GetMongosArgs(config: MongoConfig, settings: Settings, snapInstall: bool, configServerDb: Option<string>): (line: string)
    ensures StartsWith(line, "--bind_ip")
    ensures EndsWith(line, "\n")
  {
    var tokens := MongosTokens(config, settings, snapInstall, configServerDb);
    JoinBounds(tokens, " ");
    assert tokens[0][..9] == "--bind_ip";
    Join(tokens, " ")
  }

  /**
   * The router always gets exactly five tokens. It listens only on the unix
   * socket exactly when a configuration-server address is supplied, and on
   * all interfaces otherwise; a supplied address is passed through as is;
   * then come its own port, the key file in the configuration directory and
   * the closing newline.
   */
  lemma MongosShape(config: MongoConfig, settings: Settings, snapInstall: bool, configServerDb: Option<string>)
    ensures |MongosTokens(config, settings, snapInstall, configServerDb)| == 5
    ensures MongosTokens(config, settings, snapInstall, configServerDb)[0] == "--bind_ip " + MongosSocket
      <==> Supplied(configServerDb)
    ensures MongosTokens(config, settings, snapInstall, configServerDb)[0] == "--bind_ip_all"
      <==> !Supplied(configServerDb)
    ensures Supplied(configServerDb) ==>
      MongosTokens(config, settings, snapInstall, configServerDb)[1] == "--configdb " + configServerDb.value
    ensures MongosTokens(config, settings, snapInstall, configServerDb)[2] == "--port " + Decimal(settings.mongosPort)
    ensures MongosTokens(config, settings, snapInstall, configServerDb)[3] == "--keyFile=" + ConfFile(snapInstall, KeyFile)
    ensures MongosTokens(config, settings, snapInstall, configServerDb)[4] == "\n"
  {
    var first := MongosTokens(config, settings, snapInstall, configServerDb)[0];
    if Supplied(configServerDb) {
      assert first[9] == ' ' != "--bind_ip_all"[9];
    } else {
      assert |first| != |"--bind_ip " + MongosSocket|;
    }
  }

  /**
   * Without a supplied address the router reaches the configuration server
   * on localhost, naming the replica set and the port that mongod is started
   * with, whatever its other settings.
   */
  lemma MongosDefaultConfigDb(config: MongoConfig, settings: Settings, snapInstall: bool, configServerDb: Option<string>,
                              auth: bool, role: string)
    requires !Supplied(configServerDb)
    ensures MongosTokens(config, settings, snapInstall, configServerDb)[1]
      == "--configdb " + config.replset + "/localhost:" + Decimal(settings.mongodbPort)
    ensures Valued(ReplSet, config.replset) in MongodArgs(config, settings, auth, snapInstall, role)
    ensures Valued(Port, Decimal(settings.mongodbPort)) in MongodArgs(config, settings, auth, snapInstall, role)
  {
    InMongodArgs(Valued(ReplSet, config.replset), config, settings, auth, snapInstall, role);
    InMongodArgs(Valued(Port, Decimal(settings.mongodbPort)), config, settings, auth, snapInstall, role);
  }

  /** With auth and no internal TLS, mongod gets the key file. */
  lemma KeyFileInMongodArgs(config: MongoConfig, settings: Settings, snapInstall: bool, role: string)
    requires !config.tlsInternal
    ensures Valued(KeyFileOption, ConfFile(snapInstall, KeyFile)) in MongodArgs(config, settings, true, snapInstall, role)
  {
    InMongodArgs(Valued(KeyFileOption, ConfFile(snapInstall, KeyFile)), config, settings, true, snapInstall, role);
  }

  /**
   * The router's key file is the one mongod uses for key-file cluster
   * authentication: whenever mongod runs with auth and without internal TLS,
   * the router's key-file token is one of mongod's tokens.
   */
  lemma MongosSharesKeyFile(config: MongoConfig, settings: Settings, snapInstall: bool, configServerDb: Option<string>,
                            role: string)
    requires !config.tlsInternal
    ensures MongosTokens(config, settings, snapInstall, configServerDb)[3]
      in Rendered(MongodArgs(config, settings, true, snapInstall, role))
  {
    var key := Valued(KeyFileOption, ConfFile(snapInstall, KeyFile));
    assert Render(key) == MongosTokens(config, settings, snapInstall, configServerDb)[3];
    KeyFileInMongodArgs(config, settings, snapInstall, role);
    MongodWellFormed(config, settings, true, snapInstall, role);
    RenderedMember(MongodArgs(config, settings, true, snapInstall, role), key);
  }
}
