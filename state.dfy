/** Choosing the directory that holds the node's persistent state
    (state.go, `StateDir.Compute`): the `-stateDir` flag, then the
    `TS_STATE_DIR` environment variable, then the legacy shared directory
    when its machine-name file names this machine (or is missing and gets
    written), and otherwise a directory of its own for this machine name.
    The environment and file-system lookups are the struct's own function
    fields, kept here as given functions; `join` stands for `path.Join`. */
module State {
  import opened Results
  import opened Strings

  /** What reading a file gives: its text, "does not exist", or another error. */
  datatype ReadOutcome = Content(text: string) | NotExist | ReadError(cause: string)

  /** `StateDir`: the machine name, the flag value and the lookups. A
      write answers None on success or the error's text. */
  datatype StateDir = StateDir(
    machineName: string,
    stateDirFlag: string,
    getEnv: string -> string,
    userConfigDir: () -> Result<string, string>,
    dirExists: string -> Result<bool, string>,
    readFileString: string -> ReadOutcome,
    writeFileString: (string, string) -> Option<string>)

  /** One use of a lookup, in the order `Compute` makes them. */
  datatype Call =
    | GetEnv(name: string)
    | UserConfigDir
    | DirExists(dir: string)
    | ReadFile(file: string)
    | WriteFile(file: string, contents: string)

  /** Why no directory could be chosen, each wrapping the lookup's error. */
  datatype StateError =
    | ConfigDirUnknown(cause: string)
    | LegacyDirUnknown(cause: string)
    | WriteFailed(cause: string)
    | ReadFailed(cause: string)
  {
    /** The error text: a fixed explanation, with the lookup's error
        wrapped at the end. */
    function Message(): (m: string)
      ensures |this.cause| < |m| && m[|m| - |this.cause|..] == this.cause
    {
      match this
      case ConfigDirUnknown(c) => "unable to find user config directory. " + c
      case LegacyDirUnknown(c) => "unable to determine existence of legacy tsnet config directory. " + c
      case WriteFailed(c) => "unable to write machine name to legacy config dir. " + c
      case ReadFailed(c) => "unable to read legacy machine-name file. " + c
    }
  }

  /** Different errors wrapping the same cause have different texts. */
  lemma MessagesDistinct(e1: StateError, e2: StateError)
    requires e1.cause == e2.cause && e1 != e2
    ensures e1.Message() != e2.Message()
  {
  }

  /** The chosen directory or the error, with the lookups made on the way. */
  datatype Outcome = Outcome(result: Result<string, StateError>, calls: seq<Call>)

  const EnvName := "TS_STATE_DIR"
  const LegacyName := "tsnet-tsnsrv"
  const MachineNameFile := "machine-name"

  /** The legacy shared directory under the user configuration directory. */
  function LegacyDir(join: (string, string) -> string, configDir: string): string {
    join(configDir, LegacyName)
  }

  /** The directory of this machine name alone under the configuration directory. */
  function OwnDir(join: (string, string) -> string, configDir: string, machineName: string): string {
    join(configDir, LegacyName + "-" + machineName)
  }

  /** The machine-name file inside the legacy directory. */
  function NameFile(join: (string, string) -> string, configDir: string): string {
    join(LegacyDir(join, configDir), MachineNameFile)
  }

  /** The lookups in the order `Compute` may make them, for a given
      configuration directory; every trace is a prefix of this. */
  function FullTrace(sd: StateDir, join: (string, string) -> string, configDir: string): seq<Call> {
    [GetEnv(EnvName), UserConfigDir, DirExists(LegacyDir(join, configDir)),
     ReadFile(NameFile(join, configDir)), WriteFile(NameFile(join, configDir), sd.machineName)]
  }

  /** `StateDir.Compute`. */
  function Compute(sd: StateDir, join: (string, string) -> string): (o: Outcome)
    ensures |o.calls| <= 5
    ensures sd.stateDirFlag != "" ==> o.calls == []
    ensures sd.stateDirFlag == "" ==> |o.calls| >= 1 && o.calls[0] == GetEnv(EnvName)
  {
    if sd.stateDirFlag != "" then
      Outcome(Ok(sd.stateDirFlag), [])
    else
      var env := sd.getEnv(EnvName);
      if env != "" then
        Outcome(Ok(env), [GetEnv(EnvName)])
      else
        var cfg := sd.userConfigDir();
        if cfg.Err? then
          Outcome(Err(ConfigDirUnknown(cfg.error)), [GetEnv(EnvName), UserConfigDir])
        else
          var legacy := LegacyDir(join, cfg.value);
          var present := sd.dirExists(legacy);
          var t3 := [GetEnv(EnvName), UserConfigDir, DirExists(legacy)];
          if present.Err? then
            Outcome(Err(LegacyDirUnknown(present.error)), t3)
          else if !present.value then
            Outcome(Ok(OwnDir(join, cfg.value, sd.machineName)), t3)
          else
            var nameFile := NameFile(join, cfg.value);
            var read := sd.readFileString(nameFile);
            var t4 := t3 + [ReadFile(nameFile)];
            match read
            case NotExist =>
              var written := sd.writeFileString(nameFile, sd.machineName);
              var t5 := t4 + [WriteFile(nameFile, sd.machineName)];
              if written.Some? then Outcome(Err(WriteFailed(written.value)), t5)
              else Outcome(Ok(legacy), t5)
            case ReadError(cause) =>
              Outcome(Err(ReadFailed(cause)), t4)
            case Content(text) =>
              if TrimSpace(text) == sd.machineName then Outcome(Ok(legacy), t4)
              else Outcome(Ok(OwnDir(join, cfg.value, sd.machineName)), t4)
  }

  /** The flag wins outright and nothing is looked up. */
  lemma FlagWins(sd: StateDir, join: (string, string) -> string)
    requires sd.stateDirFlag != ""
    ensures Compute(sd, join) == Outcome(Ok(sd.stateDirFlag), [])
  {
  }

  /** Without the flag, a set environment variable wins, after only that one lookup. */
  lemma EnvWins(sd: StateDir, join: (string, string) -> string)
    requires sd.stateDirFlag == "" && sd.getEnv(EnvName) != ""
    ensures Compute(sd, join) == Outcome(Ok(sd.getEnv(EnvName)), [GetEnv(EnvName)])
  {
  }

  /** Past the flag and the variable, a failing configuration-directory
      lookup or existence test is an error, with nothing chosen. */
  lemma LookupErrors(sd: StateDir, join: (string, string) -> string)
    requires sd.stateDirFlag == "" && sd.getEnv(EnvName) == ""
    ensures sd.userConfigDir().Err? ==>
              Compute(sd, join).result == Err(ConfigDirUnknown(sd.userConfigDir().error))
    ensures sd.userConfigDir().Ok? && sd.dirExists(LegacyDir(join, sd.userConfigDir().value)).Err? ==>
              Compute(sd, join).result
              == Err(LegacyDirUnknown(sd.dirExists(LegacyDir(join, sd.userConfigDir().value)).error))
  {
  }

  /** The directory chosen past the flag and the variable, by what the
      file system shows: no legacy directory gives the machine's own
      directory; a missing machine-name file is written and then gives
      the legacy directory; a file naming this machine (white space
      aside) gives the legacy directory and any other name the own one. */
  lemma ChosenDirectory(sd: StateDir, join: (string, string) -> string)
    requires sd.stateDirFlag == "" && sd.getEnv(EnvName) == "" && sd.userConfigDir().Ok?
    requires sd.dirExists(LegacyDir(join, sd.userConfigDir().value)).Ok?
    ensures var cfg := sd.userConfigDir().value;
            var o := Compute(sd, join);
            var read := sd.readFileString(NameFile(join, cfg));
            && (!sd.dirExists(LegacyDir(join, cfg)).value ==> o.result == Ok(OwnDir(join, cfg, sd.machineName)))
            && (sd.dirExists(LegacyDir(join, cfg)).value && read.NotExist? ==>
                  o.calls[|o.calls| - 1] == WriteFile(NameFile(join, cfg), sd.machineName)
                  && o.result == (if sd.writeFileString(NameFile(join, cfg), sd.machineName).None?
                                  then Ok(LegacyDir(join, cfg))
                                  else Err(WriteFailed(sd.writeFileString(NameFile(join, cfg), sd.machineName).value))))
            && (sd.dirExists(LegacyDir(join, cfg)).value && read.ReadError? ==> o.result == Err(ReadFailed(read.cause)))
            && (sd.dirExists(LegacyDir(join, cfg)).value && read.Content? ==>
                  o.result == Ok(if TrimSpace(read.text) == sd.machineName then LegacyDir(join, cfg)
                                 else OwnDir(join, cfg, sd.machineName)))
  {
  }

  /** Every run's lookups are a prefix of the full order, so a write
      happens at most once, only after the machine-name file was found
      missing, and it writes this machine's name to that file. */
  lemma TraceIsPrefix(sd: StateDir, join: (string, string) -> string)
    requires sd.stateDirFlag == ""
    ensures sd.userConfigDir().Err? ==> Compute(sd, join).calls <= [GetEnv(EnvName), UserConfigDir]
    ensures sd.userConfigDir().Ok? ==>
              Compute(sd, join).calls <= FullTrace(sd, join, sd.userConfigDir().value)
    ensures forall i | 0 <= i < |Compute(sd, join).calls| && Compute(sd, join).calls[i].WriteFile? ::
              i == 4 && sd.userConfigDir().Ok?
              && sd.readFileString(NameFile(join, sd.userConfigDir().value)).NotExist?
              && Compute(sd, join).calls[i] == WriteFile(NameFile(join, sd.userConfigDir().value), sd.machineName)
  {
    var o := Compute(sd, join);
    if sd.getEnv(EnvName) == "" && sd.userConfigDir().Ok? {
      var cfg := sd.userConfigDir().value;
      var full := FullTrace(sd, join, cfg);
      assert o.calls == full[..|o.calls|];
      forall i | 0 <= i < |o.calls| && o.calls[i].WriteFile?
        ensures i == 4 && sd.readFileString(NameFile(join, cfg)).NotExist?
                && o.calls[i] == WriteFile(NameFile(join, cfg), sd.machineName)
      {
        assert o.calls[i] == full[i];
      }
    }
  }

  /** The legacy directory is only chosen for a machine it belongs to:
      when a run that reached the machine-name file answers the legacy
      directory, the file either named this machine or was just written
      with its name. */
  lemma LegacyDirBelongsToMachine(sd: StateDir, join: (string, string) -> string)
    requires sd.stateDirFlag == "" && sd.getEnv(EnvName) == "" && sd.userConfigDir().Ok?
    requires LegacyDir(join, sd.userConfigDir().value) != OwnDir(join, sd.userConfigDir().value, sd.machineName)
    ensures var cfg := sd.userConfigDir().value;
            var o := Compute(sd, join);
            var read := sd.readFileString(NameFile(join, cfg));
            o.result == Ok(LegacyDir(join, cfg)) ==>
              (read.Content? && TrimSpace(read.text) == sd.machineName)
              || (read.NotExist? && WriteFile(NameFile(join, cfg), sd.machineName) in o.calls)
  {
  }
}
