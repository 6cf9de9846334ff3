/**
  First-time identity setup as a crash-safe commit of six files (core/identity/identity.go,
  core/identity/initialization.go): everything is staged, a signed manifest commits the stage, the
  files are installed without replacement in a fixed order, and the signed state file comes last.

  A file's bytes are symbolic: the artifact of one generated identity.  Hashes, signatures and
  certificates bind the artifacts of one identity together, so a set of files is coherent exactly
  when they are all of one identity whose certificate is valid at the time.  Every file write and
  the removal of the stage is one durable step with its own fault.
*/
module IdentitySetup {
  import opened Common

  datatype Name = CaCert | CaKey | AuditKey | Keyring | Recovery | StateFile

  const INSTALL_ORDER: seq<Name> := [CaCert, CaKey, AuditKey, Keyring, Recovery, StateFile]

  /** The artifacts in the order of their file names, which is the order they are staged in. */
  const STAGE_ORDER: seq<Name> := [AuditKey, CaCert, CaKey, StateFile, Recovery, Keyring]

  datatype Bytes = Artifact(identity: nat, name: Name)

  /** The manifest holds the digest of every artifact and is signed with the staged audit key. */
  datatype Manifest = Manifest(digests: map<Name, Bytes>, signer: nat)

  datatype Stage = Stage(files: map<Name, Bytes>, manifest: Option<Manifest>)

  datatype Directory = Directory(installed: map<Name, Bytes>, stage: Option<Stage>)

  // ---------------------------------------------------------------- environment

  datatype Outcome = Done | Refused | Died

  function Verdict(fault: Fault): Outcome {
    if Kills(fault) then Died else if fault.Healthy? then Done else Refused
  }

  /** The identity a build would generate, the identities outside their validity now, and a fault per step. */
  datatype Env = Env(candidate: nat, invalid: set<nat>, faults: seq<Fault>)

  datatype Turn = Turn(directory: Directory, outcome: Outcome, faults: seq<Fault>)

  /** One durable step; when no fault is left the process has died. */
  function Write(directory: Directory, next: Directory, faults: seq<Fault>): Turn {
    var fault := if faults == [] then DiesBefore else faults[0];
    Turn(if Lands(fault) then next else directory, Verdict(fault), if faults == [] then [] else faults[1..])
  }

  // ---------------------------------------------------------------- reading

  predicate Complete(files: map<Name, Bytes>) {
    forall name | name in INSTALL_ORDER :: name in files
  }

  /** verifyCoherence with the keyring and credential checks: all of one identity, valid now. */
  predicate Coherent(files: map<Name, Bytes>, invalid: set<nat>)
    requires Complete(files)
  {
    var identity := files[StateFile].identity;
    identity !in invalid && forall name | name in INSTALL_ORDER :: files[name] == Artifact(identity, name)
  }

  datatype Reading = Committed(identity: nat) | Absent | Damaged

  /** A missing manifest or artifact reads as absent; anything that does not fit together is damage. */
  function ReadStage(stage: Stage, invalid: set<nat>): Reading {
    if stage.manifest.None? || !Complete(stage.files) then Absent
    else if stage.manifest.value.digests != stage.files || stage.manifest.value.signer != stage.files[AuditKey].identity
        then Damaged
    else if !Coherent(stage.files, invalid) then Damaged
    else Committed(stage.files[StateFile].identity)
  }

  /** The recovery credential may be missing from an installed identity; everything else must be there. */
  function Load(directory: Directory, invalid: set<nat>): Option<nat> {
    var files := directory.installed;
    var whole := if Recovery in files || StateFile !in files then files
        else files[Recovery := Artifact(files[StateFile].identity, Recovery)];
    if Complete(whole) && Coherent(whole, invalid) then Some(whole[StateFile].identity) else None
  }

  // ---------------------------------------------------------------- building and installing

  function StageFiles(directory: Directory, identity: nat, names: seq<Name>, faults: seq<Fault>): Turn
    requires directory.stage.Some?
    decreases |names|
  {
    if names == [] then Turn(directory, Done, faults)
    else if names[0] in directory.stage.value.files then Turn(directory, Refused, faults)
    else
      var stage := directory.stage.value;
      var next := directory.(stage := Some(stage.(files := stage.files[names[0] := Artifact(identity, names[0])])));
      var turn := Write(directory, next, faults);
      if turn.outcome.Done? then StageFiles(next, identity, names[1..], turn.faults) else turn
  }

  function CommitStage(directory: Directory, identity: nat, faults: seq<Fault>): Turn
    requires directory.stage.Some?
  {
    var stage := directory.stage.value;
    Write(directory, directory.(stage := Some(stage.(manifest := Some(Manifest(stage.files, identity))))), faults)
  }

  function BuildStage(directory: Directory, env: Env, faults: seq<Fault>): Turn {
    if directory.installed != map[] || directory.stage.Some? then Turn(directory, Refused, faults)
    else
      var bare := directory.(stage := Some(Stage(map[], None)));
      var made := Write(directory, bare, faults);
      if !made.outcome.Done? then made
      else
        var staged := StageFiles(bare, env.candidate, STAGE_ORDER, made.faults);
        if !staged.outcome.Done? || staged.directory.stage.None? then staged
        else
          var committed := CommitStage(staged.directory, env.candidate, staged.faults);
          if committed.outcome.Done? && !(committed.directory.stage.Some?
                                          && ReadStage(committed.directory.stage.value, env.invalid).Committed?)
          then committed.(outcome := Refused) else committed
  }

  /** A stage without its manifest was never installed from: it is removed, unless something is installed. */
  function PrepareStage(directory: Directory, env: Env): Turn {
    if directory.stage.None? then BuildStage(directory, env, env.faults)
    else
      match ReadStage(directory.stage.value, env.invalid)
      case Committed(_) => Turn(directory, Done, env.faults)
      case Damaged => Turn(directory, Refused, env.faults)
      case Absent =>
        if directory.installed != map[] then Turn(directory, Refused, env.faults)
        else
          var removed := Write(directory, directory.(stage := None), env.faults);
          if removed.outcome.Done? then BuildStage(removed.directory, env, removed.faults) else removed
  }

  /** Installs without replacement; what is already there must be the staged bytes. */
  function Install(directory: Directory, names: seq<Name>, faults: seq<Fault>): Turn
    requires directory.stage.Some?
    decreases |names|
  {
    if names == [] then Turn(directory, Done, faults)
    else
      var name, files := names[0], directory.stage.value.files;
      if name !in files then Turn(directory, Refused, faults)
      else if name in directory.installed then
        if directory.installed[name] == files[name] then Install(directory, names[1..], faults)
            else Turn(directory, Refused, faults)
      else
        var next := directory.(installed := directory.installed[name := files[name]]);
        var turn := Write(directory, next, faults);
        if turn.outcome.Done? then Install(next, names[1..], turn.faults) else turn
  }

  datatype Answer = Answer(directory: Directory, outcome: Outcome, identity: Option<nat>)

  function Failed(turn: Turn): Answer {
    Answer(turn.directory, turn.outcome, None)
  }

  /** The stage goes away in one step, and only then is the identity returned. */
  function Finish(directory: Directory, identity: nat, faults: seq<Fault>): Answer {
    var removed := Write(directory, directory.(stage := None), faults);
    Answer(removed.directory, removed.outcome, if removed.outcome.Done? then Some(identity) else None)
  }

  function Create(directory: Directory, env: Env): Answer {
    var prepared := PrepareStage(directory, env);
    if !prepared.outcome.Done? || prepared.directory.stage.None?
        then Failed(prepared.(outcome := if prepared.outcome.Died? then Died else Refused))
    else
      var installed := Install(prepared.directory, INSTALL_ORDER, prepared.faults);
      if !installed.outcome.Done? then Failed(installed)
      else
        match Load(installed.directory, env.invalid)
        case None => Answer(installed.directory, Refused, None)
        case Some(identity) => Finish(installed.directory, identity, installed.faults)
  }

  /** Everything staged must be installed with the staged bytes before the stage may go. */
  predicate Mirrors(directory: Directory, invalid: set<nat>)
    requires directory.stage.Some?
  {
    && ReadStage(directory.stage.value, invalid).Committed?
    && forall name | name in INSTALL_ORDER ::
         name in directory.installed && name in directory.stage.value.files
             && directory.installed[name] == directory.stage.value.files[name]
  }

  function Ensure(directory: Directory, env: Env): Answer {
    if StateFile !in directory.installed then Create(directory, env)
    else
      match Load(directory, env.invalid)
      case None => Answer(directory, Refused, None)
      case Some(identity) =>
        if directory.stage.None? then Answer(directory, Done, Some(identity))
        else if !Mirrors(directory, env.invalid) then Answer(directory, Refused, None)
        else Finish(directory, identity, env.faults)
  }

  // ---------------------------------------------------------------- what every crash point keeps

  predicate OfOne(files: map<Name, Bytes>, identity: nat) {
    forall name | name in files :: files[name] == Artifact(identity, name)
  }

  /** The committed stage: all six artifacts of one identity under its own manifest. */
  predicate CommittedStage(stage: Stage, identity: nat) {
    stage.manifest == Some(Manifest(stage.files, identity)) && Complete(stage.files) && OfOne(stage.files, identity)
  }

  /** Nothing is installed before the stage is committed, only its bytes are, and the state file is last. */
  predicate Installing(directory: Directory, identity: nat) {
    && OfOne(directory.installed, identity)
    && (StateFile in directory.installed ==> Complete(directory.installed))
    && (if directory.stage.Some? then CommittedStage(directory.stage.value, identity)
        else Complete(directory.installed))
  }

  predicate Unbegun(directory: Directory) {
    directory.installed == map[] && (directory.stage.Some? ==> directory.stage.value.manifest.None?)
  }

  ghost predicate Good(directory: Directory) {
    Unbegun(directory) || exists identity :: Installing(directory, identity)
  }

  /** A committed identity is committed for good: what is installed stays, nothing else is ever installed. */
  ghost predicate Advances(before: Directory, after: Directory) {
    && (forall name | name in before.installed ::
        name in after.installed && after.installed[name] == before.installed[name])
    && (forall identity | Installing(before, identity) :: Installing(after, identity))
  }

  lemma OneIdentity(directory: Directory, a: nat, b: nat)
    requires Installing(directory, a) && Installing(directory, b)
    ensures a == b
  {
    if directory.stage.Some? {
      assert StateFile in INSTALL_ORDER;
      assert directory.stage.value.files[StateFile] == Artifact(a, StateFile);
    } else {
      assert StateFile in INSTALL_ORDER;
      assert directory.installed[StateFile] == Artifact(a, StateFile);
    }
  }

  // ---------------------------------------------------------------- building

  /** While a stage is being built nothing is installed and every staged file is of one identity. */
  predicate Building(directory: Directory, identity: nat) {
    && directory.installed == map[] && directory.stage.Some?
    && directory.stage.value.manifest.None? && OfOne(directory.stage.value.files, identity)
  }

  lemma {:induction false} StageFilesKeeps(directory: Directory, identity: nat, names: seq<Name>, faults: seq<Fault>)
    requires Building(directory, identity)
    ensures var turn := StageFiles(directory, identity, names, faults);
      && Building(turn.directory, identity)
      && (turn.outcome.Done? ==> forall name | name in names || name in directory.stage.value.files ::
          name in turn.directory.stage.value.files)
    decreases |names|
  {
    if names != [] && names[0] !in directory.stage.value.files {
      var stage := directory.stage.value;
      var next := directory.(stage := Some(stage.(files := stage.files[names[0] := Artifact(identity, names[0])])));
      StageFilesKeeps(next, identity, names[1..], Write(directory, next, faults).faults);
    }
  }

  lemma BuildKeeps(directory: Directory, env: Env, faults: seq<Fault>)
    requires Unbegun(directory) && directory.stage.None?
    ensures var turn := BuildStage(directory, env, faults);
      && (Unbegun(turn.directory) || Installing(turn.directory, env.candidate)) && turn.directory.installed == map[]
      && (turn.outcome.Done? ==> turn.directory.stage.Some? && Installing(turn.directory, env.candidate))
  {
    hide StageFiles;
    var bare := directory.(stage := Some(Stage(map[], None)));
    var made := Write(directory, bare, faults);
    StageFilesKeeps(bare, env.candidate, STAGE_ORDER, made.faults);
    var staged := StageFiles(bare, env.candidate, STAGE_ORDER, made.faults);
    if made.outcome.Done? && staged.outcome.Done? {
      assert Complete(staged.directory.stage.value.files) by { SameNames(); }
      var committed := CommitStage(staged.directory, env.candidate, staged.faults);
      assert committed.directory == staged.directory || Installing(committed.directory, env.candidate);
    }
  }

  lemma SameNames()
    ensures forall name: Name :: name in INSTALL_ORDER && name in STAGE_ORDER
  {
    forall name: Name
      ensures name in INSTALL_ORDER && name in STAGE_ORDER
    {
      assert INSTALL_ORDER[0] == CaCert && INSTALL_ORDER[1] == CaKey && INSTALL_ORDER[2] == AuditKey;
      assert INSTALL_ORDER[3] == Keyring && INSTALL_ORDER[4] == Recovery && INSTALL_ORDER[5] == StateFile;
      assert STAGE_ORDER[0] == AuditKey && STAGE_ORDER[1] == CaCert && STAGE_ORDER[2] == CaKey;
      assert STAGE_ORDER[3] == StateFile && STAGE_ORDER[4] == Recovery && STAGE_ORDER[5] == Keyring;
      match name
      case CaCert =>
      case CaKey =>
      case AuditKey =>
      case Keyring =>
      case Recovery =>
      case StateFile =>
    }
  }

  lemma CommittedReads(stage: Stage, identity: nat, invalid: set<nat>)
    requires CommittedStage(stage, identity)
    ensures ReadStage(stage, invalid) == if identity in invalid then Damaged else Committed(identity)
  {
    SameNames();
  }

  lemma PrepareKeeps(directory: Directory, env: Env)
    requires Good(directory)
    ensures var turn := PrepareStage(directory, env);
      && Good(turn.directory) && Advances(directory, turn.directory) && turn.directory.installed == directory.installed
      && (turn.outcome.Done? ==> turn.directory.stage.Some? && exists identity :: Installing(turn.directory, identity))
  {
    hide BuildStage, ReadStage, Write;
    if directory.stage.None? {
      if Unbegun(directory) {
        BuildKeeps(directory, env, env.faults);
        NotBoth(directory);
      } else {
        BuildRefuses(directory, env, env.faults);
      }
    } else if Unbegun(directory) {
      NotBoth(directory);
      ManifestlessIsAbsent(directory.stage.value, env.invalid);
      var cleared := directory.(stage := None);
      WriteLeaves(directory, cleared, env.faults);
      var removed := Write(directory, cleared, env.faults);
      if removed.outcome.Done? {
        BuildKeeps(cleared, env, removed.faults);
      }
    } else {
      var identity :| Installing(directory, identity);
      CommittedReads(directory.stage.value, identity, env.invalid);
    }
  }

  lemma NotBoth(directory: Directory)
    requires Unbegun(directory)
    ensures forall identity :: !Installing(directory, identity)
  {
    SameNames();
    assert StateFile in INSTALL_ORDER;
  }

  lemma BuildRefuses(directory: Directory, env: Env, faults: seq<Fault>)
    requires exists identity :: Installing(directory, identity)
    requires directory.stage.None?
    ensures BuildStage(directory, env, faults) == Turn(directory, Refused, faults)
  {
    assert StateFile in INSTALL_ORDER by { SameNames(); }
    assert StateFile in directory.installed;
  }

  lemma ManifestlessIsAbsent(stage: Stage, invalid: set<nat>)
    requires stage.manifest.None?
    ensures ReadStage(stage, invalid) == Absent
  {
  }

  lemma WriteLeaves(directory: Directory, next: Directory, faults: seq<Fault>)
    ensures var turn := Write(directory, next, faults);
      && (turn.directory == directory || turn.directory == next) && (turn.outcome.Done? ==> turn.directory == next)
  {
  }

  // ---------------------------------------------------------------- installing

  /** The first `n` artifacts of the install order are in place. */
  predicate InPlace(directory: Directory, n: nat) {
    n <= |INSTALL_ORDER| && forall i | 0 <= i < n :: INSTALL_ORDER[i] in directory.installed
  }

  lemma {:induction false} InstallKeeps(directory: Directory, identity: nat, n: nat, faults: seq<Fault>)
    requires Installing(directory, identity) && directory.stage.Some? && InPlace(directory, n)
    ensures var turn := Install(directory, INSTALL_ORDER[n..], faults);
      && Installing(turn.directory, identity) && turn.directory.stage == directory.stage
      && (forall name | name in directory.installed ::
          name in turn.directory.installed && turn.directory.installed[name] == directory.installed[name])
      && (turn.outcome.Done? ==> Complete(turn.directory.installed))
    decreases |INSTALL_ORDER| - n
  {
    SameNames();
    if n < |INSTALL_ORDER| {
      var name := INSTALL_ORDER[n];
      assert INSTALL_ORDER[n..][0] == name && INSTALL_ORDER[n..][1..] == INSTALL_ORDER[n + 1..];
      var next := directory.(installed := directory.installed[name := directory.stage.value.files[name]]);
      if name in directory.installed {
        InstallKeeps(directory, identity, n + 1, faults);
      } else {
        StateIsLast(directory, identity, n);
        InstallKeeps(next, identity, n + 1, Write(directory, next, faults).faults);
      }
    } else {
      assert INSTALL_ORDER[n..] == [];
      AllInPlace(directory);
    }
  }

  lemma AllInPlace(directory: Directory)
    requires InPlace(directory, |INSTALL_ORDER|)
    ensures Complete(directory.installed)
  {
  }

  lemma StateIsLast(directory: Directory, identity: nat, n: nat)
    requires Installing(directory, identity) && directory.stage.Some? && InPlace(directory, n) && n < |INSTALL_ORDER|
    requires INSTALL_ORDER[n] !in directory.installed
    ensures var name := INSTALL_ORDER[n];
      && name in directory.stage.value.files
      && Installing(directory.(installed := directory.installed[name := directory.stage.value.files[name]]), identity)
      && InPlace(directory.(installed := directory.installed[name := directory.stage.value.files[name]]), n + 1)
  {
    SameNames();
    var name := INSTALL_ORDER[n];
    var next := directory.(installed := directory.installed[name := directory.stage.value.files[name]]);
    if StateFile in next.installed && StateFile !in directory.installed {
      assert n == 5;
      AllInPlace(next);
    }
  }

  lemma LoadMeaning(directory: Directory, identity: nat, invalid: set<nat>)
    requires Installing(directory, identity) && Complete(directory.installed)
    ensures Load(directory, invalid) == if identity in invalid then None else Some(identity)
  {
    SameNames();
  }

  lemma FinishKeeps(directory: Directory, identity: nat, faults: seq<Fault>)
    requires Installing(directory, identity) && Complete(directory.installed)
    ensures var answer := Finish(directory, identity, faults);
      && Installing(answer.directory, identity) && answer.directory.installed == directory.installed
      && (answer.identity.Some? ==> answer.identity == Some(identity))
  {
  }

  // ---------------------------------------------------------------- Ensure

  /** What one call of Ensure keeps, and what it may return: only the identity that is then committed. */
  ghost predicate Sound(before: Directory, answer: Answer) {
    && Good(answer.directory) && Advances(before, answer.directory)
    && (answer.identity.Some? ==>
          Installing(answer.directory, answer.identity.value) && Complete(answer.directory.installed))
  }

  lemma CreateSound(directory: Directory, env: Env)
    requires Good(directory)
    ensures Sound(directory, Create(directory, env))
  {
    hide PrepareStage, Install, Load, Finish, Installing;
    PrepareKeeps(directory, env);
    var prepared := PrepareStage(directory, env);
    if prepared.outcome.Done? {
      var identity :| Installing(prepared.directory, identity);
      assert INSTALL_ORDER[0..] == INSTALL_ORDER;
      InstallKeeps(prepared.directory, identity, 0, prepared.faults);
      var installed := Install(prepared.directory, INSTALL_ORDER, prepared.faults);
      InstalledAdvances(directory, prepared.directory, installed.directory, identity);
      if installed.outcome.Done? {
        LoadMeaning(installed.directory, identity, env.invalid);
        FinishKeeps(installed.directory, identity, installed.faults);
        InstalledAdvances(directory, prepared.directory,
                          Finish(installed.directory, identity, installed.faults).directory, identity);
      }
    }
  }

  lemma InstalledAdvances(before: Directory, prepared: Directory, after: Directory, identity: nat)
    requires Advances(before, prepared) && Installing(prepared, identity) && Installing(after, identity)
    requires forall name | name in prepared.installed ::
        name in after.installed && after.installed[name] == prepared.installed[name]
    ensures Good(after) && Advances(before, after)
  {
    hide Installing;
    forall other | Installing(before, other)
      ensures Installing(after, other)
    {
      OneIdentity(prepared, other, identity);
    }
  }

  lemma EnsureSound(directory: Directory, env: Env)
    requires Good(directory)
    ensures Sound(directory, Ensure(directory, env))
  {
    hide Create, Load, Mirrors, Finish, Installing;
    if StateFile !in directory.installed {
      CreateSound(directory, env);
    } else {
      StateMeansComplete(directory);
      var identity :| Installing(directory, identity) && Complete(directory.installed);
      LoadMeaning(directory, identity, env.invalid);
      FinishKeeps(directory, identity, env.faults);
      InstalledAdvances(directory, directory, Finish(directory, identity, env.faults).directory, identity);
    }
  }

  /** The signed state file is there only when the other five are, with the bytes of one committed identity. */
  lemma StateMeansComplete(directory: Directory)
    requires Good(directory) && StateFile in directory.installed
    ensures exists identity :: Installing(directory, identity) && Complete(directory.installed)
  {
  }

  // ---------------------------------------------------------------- every run of calls

  /** The identities returned along a run of calls, each under its own environment. */
  function Returned(directory: Directory, envs: seq<Env>): seq<nat>
    decreases |envs|
  {
    if envs == [] then []
    else
      var answer := Ensure(directory, envs[0]);
      (if answer.identity.Some? then [answer.identity.value] else []) + Returned(answer.directory, envs[1..])
  }

  function After(directory: Directory, envs: seq<Env>): Directory
    decreases |envs|
  {
    if envs == [] then directory else After(Ensure(directory, envs[0]).directory, envs[1..])
  }

  /** Once an identity is committed, every later call that returns anything returns that identity. */
  lemma {:induction false} CommittedForGood(directory: Directory, envs: seq<Env>, identity: nat)
    requires Installing(directory, identity)
    ensures Installing(After(directory, envs), identity)
    ensures forall i | 0 <= i < |Returned(directory, envs)| :: Returned(directory, envs)[i] == identity
    decreases |envs|
  {
    hide Installing, Ensure;
    if envs != [] {
      assert Good(directory);
      EnsureSound(directory, envs[0]);
      var answer := Ensure(directory, envs[0]);
      assert Installing(answer.directory, identity);
      CommittedForGood(answer.directory, envs[1..], identity);
      if answer.identity.Some? {
        OneIdentity(answer.directory, identity, answer.identity.value);
      }
    }
  }

  /**
    From any directory setup can have left, whatever crashes and failures come between, two different
    identities are never returned.
  */
  lemma {:induction false} OneIdentityEver(directory: Directory, envs: seq<Env>)
    requires Good(directory)
    ensures Good(After(directory, envs))
    ensures AllEqual(Returned(directory, envs))
    decreases |envs|
  {
    hide Installing, Ensure;
    if envs != [] {
      EnsureSound(directory, envs[0]);
      var answer := Ensure(directory, envs[0]);
      OneIdentityEver(answer.directory, envs[1..]);
      if answer.identity.Some? {
        CommittedForGood(answer.directory, envs[1..], answer.identity.value);
      } else {
        assert Returned(directory, envs) == Returned(answer.directory, envs[1..]);
      }
    }
  }

  predicate AllEqual(identities: seq<nat>) {
    forall i, j | 0 <= i < |identities| && 0 <= j < |identities| :: identities[i] == identities[j]
  }

  // ---------------------------------------------------------------- a call with healthy steps

  predicate AllHealthy(faults: seq<Fault>, n: nat) {
    n <= |faults| && forall i | 0 <= i < |faults| :: faults[i].Healthy?
  }

  lemma HealthyWrite(directory: Directory, next: Directory, faults: seq<Fault>, n: nat)
    requires AllHealthy(faults, n) && n > 0
    ensures Write(directory, next, faults) == Turn(next, Done, faults[1..]) && AllHealthy(faults[1..], n - 1)
  {
  }

  lemma {:induction false} HealthyStage(directory: Directory, identity: nat, n: nat, faults: seq<Fault>, spare: nat)
    requires directory.stage.Some? && n <= 6 && AllHealthy(faults, 6 - n + spare)
    requires forall i | n <= i < 6 :: STAGE_ORDER[i] !in directory.stage.value.files
    ensures var turn := StageFiles(directory, identity, STAGE_ORDER[n..], faults);
      turn.outcome.Done? && turn.directory.stage.Some? && AllHealthy(turn.faults, spare)
    decreases 6 - n
  {
    if n < 6 {
      var name := STAGE_ORDER[n];
      assert STAGE_ORDER[n..][0] == name && STAGE_ORDER[n..][1..] == STAGE_ORDER[n + 1..];
      var stage := directory.stage.value;
      var next := directory.(stage := Some(stage.(files := stage.files[name := Artifact(identity, name)])));
      HealthyWrite(directory, next, faults, 6 - n + spare);
      StagedOnce(n);
      HealthyStage(next, identity, n + 1, faults[1..], spare);
    }
  }

  lemma StagedOnce(n: nat)
    requires n < 6
    ensures forall i | n < i < 6 :: STAGE_ORDER[i] != STAGE_ORDER[n]
  {
  }

  lemma HealthyBuild(directory: Directory, env: Env, faults: seq<Fault>, spare: nat)
    requires Unbegun(directory) && directory.stage.None? && AllHealthy(faults, 8 + spare)
        && env.candidate !in env.invalid
    ensures var turn := BuildStage(directory, env, faults); turn.outcome.Done? && AllHealthy(turn.faults, spare)
  {
    hide StageFiles, ReadStage, Write;
    var bare := directory.(stage := Some(Stage(map[], None)));
    HealthyWrite(directory, bare, faults, 8 + spare);
    assert STAGE_ORDER[0..] == STAGE_ORDER;
    HealthyStage(bare, env.candidate, 0, faults[1..], 1 + spare);
    StageFilesKeeps(bare, env.candidate, STAGE_ORDER, faults[1..]);
    var staged := StageFiles(bare, env.candidate, STAGE_ORDER, faults[1..]);
    var stage := staged.directory.stage.value;
    var next := staged.directory.(stage := Some(stage.(manifest := Some(Manifest(stage.files, env.candidate)))));
    HealthyWrite(staged.directory, next, staged.faults, 1 + spare);
    assert Complete(stage.files) by { SameNames(); }
    CommittedReads(next.stage.value, env.candidate, env.invalid);
  }

  lemma {:induction false} HealthyInstall(directory: Directory, identity: nat, n: nat, faults: seq<Fault>)
    requires Installing(directory, identity) && directory.stage.Some? && InPlace(directory, n)
        && AllHealthy(faults, 7 - n)
    ensures var turn := Install(directory, INSTALL_ORDER[n..], faults); turn.outcome.Done? && AllHealthy(turn.faults, 1)
    decreases 6 - n
  {
    SameNames();
    if n < 6 {
      var name := INSTALL_ORDER[n];
      assert INSTALL_ORDER[n..][0] == name && INSTALL_ORDER[n..][1..] == INSTALL_ORDER[n + 1..];
      if name in directory.installed {
        HealthyInstall(directory, identity, n + 1, faults);
      } else {
        var next := directory.(installed := directory.installed[name := directory.stage.value.files[name]]);
        HealthyWrite(directory, next, faults, 7 - n);
        StateIsLast(directory, identity, n);
        HealthyInstall(next, identity, n + 1, faults[1..]);
      }
    }
  }

  lemma CreateSucceeds(directory: Directory, env: Env, identity: nat)
    requires Good(directory) && AllHealthy(env.faults, 16) && identity !in env.invalid
    requires if Unbegun(directory) then identity == env.candidate
        else Installing(directory, identity) && directory.stage.Some?
    ensures Create(directory, env).identity == Some(identity)
  {
    hide PrepareStage, Install, Load, Installing, Write;
    PrepareSucceeds(directory, env, identity);
    var prepared := PrepareStage(directory, env);
    assert INSTALL_ORDER[0..] == INSTALL_ORDER;
    HealthyInstall(prepared.directory, identity, 0, prepared.faults);
    InstallKeeps(prepared.directory, identity, 0, prepared.faults);
    var installed := Install(prepared.directory, INSTALL_ORDER, prepared.faults);
    LoadMeaning(installed.directory, identity, env.invalid);
    HealthyWrite(installed.directory, installed.directory.(stage := None), installed.faults, 1);
  }

  lemma PrepareSucceeds(directory: Directory, env: Env, identity: nat)
    requires Good(directory) && AllHealthy(env.faults, 16) && identity !in env.invalid
    requires if Unbegun(directory) then identity == env.candidate
        else Installing(directory, identity) && directory.stage.Some?
    ensures var prepared := PrepareStage(directory, env);
      && prepared.outcome.Done? && prepared.directory.stage.Some? && Installing(prepared.directory, identity)
      && AllHealthy(prepared.faults, 7)
  {
    hide BuildStage, ReadStage, Write;
    if !Unbegun(directory) {
      CommittedReads(directory.stage.value, identity, env.invalid);
    } else if directory.stage.None? {
      HealthyBuild(directory, env, env.faults, 7);
      BuildKeeps(directory, env, env.faults);
    } else {
      ManifestlessIsAbsent(directory.stage.value, env.invalid);
      var cleared := directory.(stage := None);
      HealthyWrite(directory, cleared, env.faults, 16);
      HealthyBuild(cleared, env, env.faults[1..], 7);
      BuildKeeps(cleared, env, env.faults[1..]);
    }
  }

  /**
    From every state a crashed setup can leave behind, a call whose steps go through returns the
    committed identity, or the new candidate if nothing was committed, provided its certificate is
    valid at the time; if it is not, no identity is returned.
  */
  lemma EnsureResumes(directory: Directory, env: Env, identity: nat)
    requires Good(directory) && AllHealthy(env.faults, 16)
    requires if Unbegun(directory) then identity == env.candidate && identity !in env.invalid
        else Installing(directory, identity)
    ensures Ensure(directory, env).identity == if identity in env.invalid then None else Some(identity)
  {
    hide Create, Load, Installing, Write, Mirrors;
    if identity in env.invalid {
      InvalidIsNotReturned(directory, env, identity);
    } else if StateFile in directory.installed {
      InstalledIsLoaded(directory, env, identity);
    } else {
      StagedWhenIncomplete(directory, identity);
      CreateSucceeds(directory, env, identity);
    }
  }

  lemma StagedWhenIncomplete(directory: Directory, identity: nat)
    requires Unbegun(directory) || Installing(directory, identity)
    requires StateFile !in directory.installed
    ensures Unbegun(directory) || directory.stage.Some?
  {
    SameNames();
    assert StateFile in INSTALL_ORDER;
  }

  lemma InstalledIsLoaded(directory: Directory, env: Env, identity: nat)
    requires Installing(directory, identity) && StateFile in directory.installed && AllHealthy(env.faults, 16)
        && identity !in env.invalid
    ensures Ensure(directory, env).identity == Some(identity)
  {
    hide Load, Write;
    SameNames();
    LoadMeaning(directory, identity, env.invalid);
    if directory.stage.Some? {
      CommittedReads(directory.stage.value, identity, env.invalid);
      HealthyWrite(directory, directory.(stage := None), env.faults, 16);
    }
  }

  lemma InvalidIsNotReturned(directory: Directory, env: Env, identity: nat)
    requires Installing(directory, identity) && identity in env.invalid
    ensures Ensure(directory, env).identity.None?
  {
    hide Load, Write, BuildStage;
    SameNames();
    if StateFile in directory.installed {
      LoadMeaning(directory, identity, env.invalid);
    } else {
      NotBothWays(directory, identity);
      StagedWhenIncomplete(directory, identity);
      CommittedReads(directory.stage.value, identity, env.invalid);
    }
  }

  lemma NotBothWays(directory: Directory, identity: nat)
    requires Installing(directory, identity)
    ensures !Unbegun(directory)
  {
    SameNames();
    assert StateFile in INSTALL_ORDER;
  }

  // ---------------------------------------------------------------- the directory, changed step by step

  /** The state directory under the initialization lock; `faults` are what the coming writes will meet. */
  class IdentityDirectory {
    var installed: map<Name, Bytes>
    var stage: Option<Stage>
    var faults: seq<Fault>

    function Contents(): Directory
      reads this
    {
      Directory(installed, stage)
    }

    constructor ()
      ensures Contents() == Directory(map[], None) && faults == []
    {
      installed, stage, faults := map[], None, [];
    }

    /** One durable step to the given contents. */
    method Commit(installed': map<Name, Bytes>, stage': Option<Stage>) returns (outcome: Outcome)
      modifies this
      ensures Turn(Contents(), outcome, faults) == Write(old(Contents()), Directory(installed', stage'), old(faults))
    {
      var fault := DiesBefore;
      if faults != [] {
        fault, faults := faults[0], faults[1..];
      }
      if Lands(fault) {
        installed, stage := installed', stage';
      }
      outcome := Verdict(fault);
    }

    method StageAll(identity: nat, names: seq<Name>) returns (outcome: Outcome)
      requires stage.Some?
      modifies this
      ensures Turn(Contents(), outcome, faults) == StageFiles(old(Contents()), identity, names, old(faults))
    {
      outcome := Done;
      assert names[0..] == names;
      for i := 0 to |names|
        invariant outcome == Done && stage.Some?
        invariant StageFiles(old(Contents()), identity, names, old(faults))
            == StageFiles(Contents(), identity, names[i..], faults)
      {
        assert names[i..][0] == names[i] && names[i..][1..] == names[i + 1..];
        var current := stage.value;
        if names[i] in current.files {
          return Refused;
        }
        outcome := Commit(installed, Some(current.(files := current.files[names[i] := Artifact(identity, names[i])])));
        if !outcome.Done? {
          return;
        }
      }
    }

    method Build(env: Env) returns (outcome: Outcome)
      modifies this
      ensures Turn(Contents(), outcome, faults) == BuildStage(old(Contents()), env, old(faults))
    {
      hide StageFiles, Write, ReadStage;
      if installed != map[] || stage.Some? {
        return Refused;
      }
      outcome := Commit(installed, Some(Stage(map[], None)));
      CommittedWrite(old(Contents()), Directory(old(installed), Some(Stage(map[], None))), old(faults));
      if !outcome.Done? {
        return;
      }
      outcome := StageAll(env.candidate, STAGE_ORDER);
      if !outcome.Done? || stage.None? {
        return;
      }
      outcome := Commit(installed, Some(stage.value.(manifest := Some(Manifest(stage.value.files, env.candidate)))));
      if outcome.Done? && !(stage.Some? && ReadStage(stage.value, env.invalid).Committed?) {
        outcome := Refused;
      }
    }

    method Prepare(env: Env) returns (outcome: Outcome)
      requires faults == env.faults
      modifies this
      ensures Turn(Contents(), outcome, faults) == PrepareStage(old(Contents()), env)
    {
      hide BuildStage, Write, ReadStage;
      if stage.Some? {
        match ReadStage(stage.value, env.invalid) {
          case Committed(_) => return Done;
          case Damaged => return Refused;
          case Absent =>
        }
        if installed != map[] {
          return Refused;
        }
        outcome := Commit(installed, None);
        if !outcome.Done? {
          return;
        }
      }
      outcome := Build(env);
    }

    method InstallAll(names: seq<Name>) returns (outcome: Outcome)
      requires stage.Some?
      modifies this
      ensures Turn(Contents(), outcome, faults) == Install(old(Contents()), names, old(faults))
    {
      outcome := Done;
      assert names[0..] == names;
      for i := 0 to |names|
        invariant outcome == Done && stage.Some?
        invariant Install(old(Contents()), names, old(faults)) == Install(Contents(), names[i..], faults)
      {
        assert names[i..][0] == names[i] && names[i..][1..] == names[i + 1..];
        var name, files := names[i], stage.value.files;
        if name !in files {
          return Refused;
        }
        if name in installed {
          if installed[name] != files[name] {
            return Refused;
          }
        } else {
          outcome := Commit(installed[name := files[name]], stage);
          if !outcome.Done? {
            return;
          }
        }
      }
    }

    method RemoveStage(identity: nat) returns (outcome: Outcome, result: Option<nat>)
      modifies this
      ensures Answer(Contents(), outcome, result) == Finish(old(Contents()), identity, old(faults))
    {
      outcome := Commit(installed, None);
      result := if outcome.Done? then Some(identity) else None;
    }

    method CreateIdentity(env: Env) returns (outcome: Outcome, result: Option<nat>)
      requires faults == env.faults
      modifies this
      ensures Answer(Contents(), outcome, result) == Create(old(Contents()), env)
    {
      hide PrepareStage, Install, Load, Finish;
      outcome := Prepare(env);
      if !outcome.Done? || stage.None? {
        return if outcome.Died? then Died else Refused, None;
      }
      outcome := InstallAll(INSTALL_ORDER);
      if !outcome.Done? {
        return outcome, None;
      }
      var identity := Load(Contents(), env.invalid);
      if identity.None? {
        return Refused, None;
      }
      outcome, result := RemoveStage(identity.value);
    }

    method EnsureIdentity(env: Env) returns (outcome: Outcome, result: Option<nat>)
      requires faults == env.faults
      modifies this
      ensures Answer(Contents(), outcome, result) == Ensure(old(Contents()), env)
    {
      hide Create, Load, Finish, Mirrors;
      if StateFile in installed {
        var identity := Load(Contents(), env.invalid);
        if identity.None? {
          return Refused, None;
        }
        if stage.None? {
          return Done, identity;
        }
        if !Mirrors(Contents(), env.invalid) {
          return Refused, None;
        }
        outcome, result := RemoveStage(identity.value);
      } else {
        outcome, result := CreateIdentity(env);
      }
    }
  }

  lemma CommittedWrite(directory: Directory, next: Directory, faults: seq<Fault>)
    ensures Write(directory, next, faults).outcome.Done? ==> Write(directory, next, faults).directory == next
  {
  }
}
