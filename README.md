# MongoDB charm helpers, modelled in Dafny

This project models the deterministic core of the charm library
`lib/charms/mongodb/v1/helpers.py`:

- **Startup arguments** (`StartupArgs`, `startup_args.dfy`).
  - `get_mongod_args` is a method that grows the argument list step by step, as the source does. It is proved equal to `MongodLine`, the arguments joined with single spaces.
  - Arguments are values of an `Arg` datatype (a bare flag, an option with a value, or a raw token), rendered in the source's own spelling.
  - `_get_logging_options` and `get_mongos_args` are functions.
  - The lemmas state which arguments appear under which inputs: the role flags, the two cluster-authentication modes, auth, external TLS, the fixed prefix and the final newline, the snap path prefixes, and the router's five tokens.
  - Rendering is injective on the arguments the builders form, so these statements carry over to the joined string tokens; the token-level lemmas state them there too.
- **Replica-member status** (`ReplicaStatus`, `replica_status.dfy`).
  - `build_unit_status` maps the driver's answer onto the four unit statuses. The answer is a reported map from member address to state, a server-selection timeout, a lost connection, or any other failure.
- **Backup-tool status** (`BackupStatus`, `backup_status.dfy`).
  - `current_pbm_op` and `process_pbm_status` work over a parsed JSON document with Python's semantics for `in` and `[]`.
  - A document that does not parse is a separate outcome.
- **Environment-file patcher** (`EnvFile`, `env_file.dfy`).
  - The line-list part of `add_args_to_env` is a method with the source's loop.
  - It is proved equal to `PatchedLines`. The lemmas prove rewrite-every-match, append-iff-none, growth by at most one line, and idempotence.

Shared modules:
- `Text`: Python's `startswith`, `endswith`, `in` on strings, `str(n)` and `join`.
- `Results`: Python exceptions as a `Result` outcome, and `Option` for `None`.
- `Status`: the unit-status vocabulary.

Values the library reads from the charm's `config` module form the `Settings` parameter: the two ports, the audit-log format and the two role names. The lemmas that need the config-server and shard role names to differ say so in a `requires`/implication.

Three behaviours of the code worth knowing:
- `add_args_to_env` rewrites every line that contains the variable, not only the first. Its loop has no `break`.
- A pbm status document without a `running` field does not give `Active("")`. `current_pbm_op` then returns `""`, which is not `{}`, so `""["type"]` raises TypeError.
- A backup or restore entry without `name` raises KeyError.

## Model

| member | source | states |
|---|---|---|
| Text.Decimal | lib/charms/mongodb/v1/helpers.py:155 | `str` of a port number is a non-empty string of decimal digits, with a leading zero only for zero |
| Text.DecimalValue | lib/charms/mongodb/v1/helpers.py:155 | the digits `str(n)` writes spell `n` back, read most significant first |
| Text.JoinBounds | lib/charms/mongodb/v1/helpers.py:201 | a space-joined line starts with its first token and ends with its last |
| StartupArgs.LoggingOptions | lib/charms/mongodb/v1/helpers.py:55-61 | with logging to syslog switched on, the logging option is the empty string for both install kinds |
| StartupArgs.SnapPrefixes | lib/charms/mongodb/v1/helpers.py:143-144 | the data directory lies under the snap's common directory, and the configuration directory under the snap's data directory, exactly for a snap install; both end with the plain directory |
| StartupArgs.ConfFilePrefix | lib/charms/mongodb/v1/helpers.py:144 | a configuration file lies in the configuration directory, under the snap's data directory exactly for a snap install |
| StartupArgs.MongodArgs | lib/charms/mongodb/v1/helpers.py:146-200 | the seven base arguments, then each optional segment under the source's condition in the source's order, then the newline; so at least eight arguments, the last one the newline |
| StartupArgs.BaseRendered | lib/charms/mongodb/v1/helpers.py:146-159 | the seven base arguments render as bind-all, `--replSet=`, `--dbpath=`, `--port=`, the two audit options and the logging option |
| StartupArgs.KeyFileAuthRendered | lib/charms/mongodb/v1/helpers.py:165-170 | key-file cluster authentication renders as `--clusterAuthMode=keyFile` and `--keyFile=<conf dir>/keyFile` |
| StartupArgs.ExternalTlsRendered | lib/charms/mongodb/v1/helpers.py:173-181 | external TLS renders as the CA file, the certificate-key file, `preferTLS` and the disabled protocols |
| StartupArgs.InternalTlsRendered | lib/charms/mongodb/v1/helpers.py:185-192 | internal TLS renders as `--clusterAuthMode=x509`, the certificate check waiver and the two cluster files |
| StartupArgs.GetMongodArgs | lib/charms/mongodb/v1/helpers.py:132-201 | growing the list step by step and joining it gives exactly the mongod command line of the argument model |
| StartupArgs.InMongodArgs | lib/charms/mongodb/v1/helpers.py:146-200 | an argument is in the mongod list exactly when it belongs to a segment whose condition holds |
| StartupArgs.MongodGives | lib/charms/mongodb/v1/helpers.py:160-198 | each option in the list implies the condition that emits it (`--auth` only with auth, key file only with auth and no internal TLS, TLS options only with TLS, role flags only for their role) |
| StartupArgs.MongodNoLogPath | lib/charms/mongodb/v1/helpers.py:55-61 | with logging to syslog switched on, no token of the mongod command line starts with `--logpath` |
| StartupArgs.MongodConfFiles | lib/charms/mongodb/v1/helpers.py:163-192 | every option naming a configuration file names it in the install kind's configuration directory, under the snap's data directory exactly for a snap install |
| StartupArgs.MongodShape | lib/charms/mongodb/v1/helpers.py:146-200 | the list always opens with the seven base arguments and always ends with the newline token |
| StartupArgs.MongodLineBounds | lib/charms/mongodb/v1/helpers.py:143-201 | the command line starts with `--bind_ip_all` and ends with the newline; the third token is the data path, under the snap's common directory exactly for a snap install |
| StartupArgs.RoleFlags | lib/charms/mongodb/v1/helpers.py:194-198 | `--configsvr` iff the config-server role, `--shardsvr` iff the shard role, never both when the role names differ, neither for the default role |
| StartupArgs.ClusterAuthModes | lib/charms/mongodb/v1/helpers.py:163-192 | key-file mode and the key file iff auth and no internal TLS; x509 mode, the certificate waiver and the cluster files iff both kinds of TLS; never both modes; internal TLS alone gives no cluster authentication |
| StartupArgs.AuthAndExternalTls | lib/charms/mongodb/v1/helpers.py:160-181 | `--auth` iff auth; the four external TLS arguments iff external TLS |
| StartupArgs.RenderInjective | lib/charms/mongodb/v1/helpers.py:146-200 | two arguments of the shapes the builders form that render to the same token are the same argument |
| StartupArgs.RenderedMember | lib/charms/mongodb/v1/helpers.py:201 | an argument of the builders' shapes is in the list iff its text is one of the joined tokens |
| StartupArgs.RenderedCount | lib/charms/mongodb/v1/helpers.py:201 | such an argument's text occurs among the joined tokens exactly as often as the argument occurs in the list |
| StartupArgs.RoleFlagTokens | lib/charms/mongodb/v1/helpers.py:194-198 | the token `--configsvr` iff the config-server role, `--shardsvr` iff the shard role, never both when the role names differ |
| StartupArgs.KeyFileAuthTokens | lib/charms/mongodb/v1/helpers.py:163-170 | the tokens `--clusterAuthMode=keyFile` and `--keyFile=<conf dir>/keyFile` iff auth and no internal TLS |
| StartupArgs.X509ModeTokens | lib/charms/mongodb/v1/helpers.py:163-192 | the token `--clusterAuthMode=x509` iff both kinds of TLS, and never together with `--clusterAuthMode=keyFile` |
| StartupArgs.InternalTlsTokens | lib/charms/mongodb/v1/helpers.py:184-192 | the certificate waiver and the two cluster-file tokens iff both kinds of TLS |
| StartupArgs.NoClusterAuthTokens | lib/charms/mongodb/v1/helpers.py:163-192 | internal TLS without external TLS leaves no token starting with `--clusterAuthMode=` or `--keyFile=` |
| StartupArgs.KeyFileArgsOnce | lib/charms/mongodb/v1/helpers.py:163-170 | with auth and no internal TLS, each key-file argument occurs exactly once in the list |
| StartupArgs.KeyFileOnce | lib/charms/mongodb/v1/helpers.py:163-170 | with auth and no internal TLS, the key-file mode token and the key-file token each occur exactly once on the command line |
| StartupArgs.AuthAndExternalTlsTokens | lib/charms/mongodb/v1/helpers.py:160-181 | the token `--auth` iff auth; the four external TLS tokens iff external TLS |
| StartupArgs.MongosTokens | lib/charms/mongodb/v1/helpers.py:106-125 | the router's five tokens in the source's order: bind, config server, port and key file, each starting with `--`, then the newline |
| StartupArgs.GetMongosArgs | lib/charms/mongodb/v1/helpers.py:95-129 | the router's command line starts with a bind option and ends with the newline |
| StartupArgs.MongosShape | lib/charms/mongodb/v1/helpers.py:106-125 | exactly five tokens; the unix socket bind iff a non-empty config-server address is supplied, bind-all otherwise; a supplied address is passed through; the mongos port; the key file in the install kind's configuration directory; the final newline |
| StartupArgs.MongosDefaultConfigDb | lib/charms/mongodb/v1/helpers.py:113 | without a supplied address the router connects to `<replset>/localhost:<port>`, the replica set and port that mongod is started with |
| StartupArgs.MongosSharesKeyFile | lib/charms/mongodb/v1/helpers.py:115-123 | the router's key-file token is one of mongod's tokens whenever mongod uses key-file authentication |
| ReplicaStatus.MemberStatus | lib/charms/mongodb/v1/helpers.py:233-244 | each row of the member-state table iff its state: PRIMARY, SECONDARY, the four syncing states, REMOVED; any other state blocks with itself as the message |
| ReplicaStatus.BuildUnitStatus | lib/charms/mongodb/v1/helpers.py:224-253 | the outcome is an exception exactly for failures other than the two recognised ones, and it is never maintenance; a unit the report lists gets the status of its state from the member-state table |
| ReplicaStatus.WaitingCauses | lib/charms/mongodb/v1/helpers.py:230-253 | each waiting message iff its cause: unit missing from the report, selection timeout, lost connection, syncing state, REMOVED |
| ReplicaStatus.ActiveAndBlocked | lib/charms/mongodb/v1/helpers.py:233-244 | active iff reported as primary or secondary; blocked iff reported in an unnamed state, carried as the message |
| BackupStatus.CurrentPbmOp | lib/charms/mongodb/v1/helpers.py:265-268 | undecodable text raises; for an object the `running` entry or `""` |
| BackupStatus.Lookup | lib/charms/mongodb/v1/helpers.py:278-283 | `d[key]` succeeds iff a dict has the key; KeyError for a dict without it, TypeError for anything else |
| BackupStatus.Str | lib/charms/mongodb/v1/helpers.py:278-284 | the backup name as the f-string interpolates it: a string unchanged, an integer as its decimal digits with a minus sign exactly when negative (the digits read back as the number), and `None`, `True` or `False` for the other scalars |
| BackupStatus.BackupIdOf | lib/charms/mongodb/v1/helpers.py:280 | a backup id read from a message rebuilds that message |
| BackupStatus.BackupIdRoundTrip | lib/charms/mongodb/v1/helpers.py:279-284 | the backup id read back from an operation message is the one written into it |
| BackupStatus.OperationsDistinguished | lib/charms/mongodb/v1/helpers.py:280-284 | a backup message never equals a restore message, whatever the two ids, and neither is read back as the other kind |
| BackupStatus.StatusOfOp | lib/charms/mongodb/v1/helpers.py:275-289 | never blocked; an empty entry gives `Active("")`; maintenance only with a name; an entry that is not a dict raises TypeError |
| BackupStatus.ProcessPbmStatus | lib/charms/mongodb/v1/helpers.py:271-289 | undecodable text raises; the status is never blocked |
| BackupStatus.PbmStatusTable | lib/charms/mongodb/v1/helpers.py:265-289 | TypeError iff `running` is absent or not a dict; `Active("")` iff the entry is empty or of another type; waiting iff resync; KeyError on `type` iff a non-empty entry lacks it |
| BackupStatus.PbmOperationStatus | lib/charms/mongodb/v1/helpers.py:278-284 | a backup or restore gives maintenance iff the entry has a name, KeyError on `name` otherwise, and the message gives the name back |
| EnvFile.PatchedLines | lib/charms/mongodb/v1/helpers.py:297-306 | the line list handed to `writelines`: as many lines as were read when one of them mentions the variable, one more when none does |
| EnvFile.Rewritten | lib/charms/mongodb/v1/helpers.py:298-301 | each line containing the variable becomes its entry, each other line is kept |
| EnvFile.AddArgsToEnv | lib/charms/mongodb/v1/helpers.py:297-306 | the loop's in-place rewrites and the final append give exactly the patched line list |
| EnvFile.EntryMentionsVariable | lib/charms/mongodb/v1/helpers.py:301 | the entry written for a variable contains that variable |
| EnvFile.PatchedLinesSpec | lib/charms/mongodb/v1/helpers.py:297-306 | every matching line rewritten, every other line kept in place, the entry appended at the end iff no line matched, length unchanged or plus one, the entry always present |
| EnvFile.PatchIdempotent | lib/charms/mongodb/v1/helpers.py:297-306 | patching twice with the same variable and arguments gives the same lines as patching once |

## Left out

- File I/O in `add_args_to_env`: reading and writing the environment file is left out. The model takes and returns the line list. Rewritten lines lose their trailing newline unless `args` ends with one, and the argument builders' final `"\n"` token provides that.
- `MongoDBConnection` and the pymongo driver: the driver's answer is the input `ReplsetQuery`. An uncaught driver exception is `DriverError` carrying its name.
- `json.loads`: the parsed document is the input (`PbmText`), and text that does not parse is `Malformed`. JSON numbers are integers; floating-point numbers are not modelled.
- BackupStatus.Str: a backup `name` that is a JSON array or object is rendered as the placeholder `[...]` or `{...}`, not as Python's `repr` of its contents. A dict's printed order depends on key insertion order, which a Dafny map does not keep.
- `generate_password` and `generate_keyfile` are not modelled: they draw from the operating system's cryptographic randomness.
- `copy_licenses_to_unit` is not modelled: it runs shell commands that copy files.
- `get_create_user_cmd` is not modelled: it returns a constant command list and has no logic.
- Logging calls are left out.
- The `config` module is not part of this model. Its constants are fields of `Settings`. That the config-server and shard role names differ is an assumption stated where it is needed.
- StartupArgs.GetMongodArgs: the list it grows holds structured arguments, which are rendered to strings at the join. The source grows a list of strings, and both produce the same joined line.
