/** scripts/use-chain.sh: scaffolding and activating the env files of one chain. */
module UseChain {
  import opened Wrappers
  import opened EnvText

  /** The project's dot-env files by name. */
  type Files = map<string, string>

  const ACTIVE: string := ".env"
  const EXAMPLE: string := ".env.example"
  const BACKUP: string := ".env.backup"

  const CHAIN: string := "CHAIN"
  const CHAIN_ID: string := "CHAIN_ID"
  const SIMULATED_TEE: string := "SIMULATED_TEE"
  const LANGUAGE: string := "LANGUAGE"

  /** The chain table of scripts/chain-env.sh. */
  datatype Chain = Local | Coston | Coston2 | Songbird | Flare {

    function Name(): string {
      match this
      case Local => "local"
      case Coston => "coston"
      case Coston2 => "coston2"
      case Songbird => "songbird"
      case Flare => "flare"
    }

    function Id(): string {
      match this
      case Local => "31337"
      case Coston => "16"
      case Coston2 => "114"
      case Songbird => "19"
      case Flare => "14"
    }
  }

  /** The arguments; "" for no --language. */
  datatype Options = Options(chain: Chain, simulated: bool, language: string) {

    function EnvFile(): string {
      ".env." + chain.Name()
    }

    function SimFile(): string {
      ".env.local." + chain.Name()
    }

    predicate UsesSim() {
      simulated && chain != Local
    }

    function Source(): string {
      if UsesSim() then SimFile() else EnvFile()
    }
  }

  /** What the script finds outside the env files: the address dump, the templates of the proxy and
      compose files, and the languages implemented here. */
  datatype Outside = Outside(addressesOk: bool, templatesOk: bool, languages: set<string>)

  // --- steps 1 and 1b: the per-chain env files ---------------------------------------------------

  /** What a fresh .env.<chain> gets rewritten, in order. */
  function ChainValues(chain: Chain): seq<(string, string)> {
    if chain == Local then
      [(CHAIN, "local"), ("LOCAL_MODE", "true"), (SIMULATED_TEE, "true"), (CHAIN_ID, "31337"),
       ("CHAIN_URL", "http://127.0.0.1:8545"), ("NORMAL_PROXY_URL", "http://localhost:6662"),
       ("ADDRESSES_FILE", ""), ("EXT_PROXY_URL", "")]
    else
      [(CHAIN, chain.Name()), ("LOCAL_MODE", "false"), (SIMULATED_TEE, "false"), (CHAIN_ID, chain.Id()),
       ("CHAIN_URL", "https://" + chain.Name() + "-api.flare.network/ext/C/rpc"),
       ("ADDRESSES_FILE", "./config/" + chain.Name() + "/deployed-addresses.json"),
       ("NORMAL_PROXY_URL", "https://tee-proxy-" + chain.Name() + "-1.flare.rocks"), ("EXT_PROXY_URL", "")]
  }

  function Donor(files: Files): Option<string> {
    if ACTIVE in files then Some(files[ACTIVE]) else if EXAMPLE in files then Some(files[EXAMPLE]) else None
  }

  /** .env.<chain> after step 1: kept with its chain keys re-asserted, or cloned; None is the die. */
  function EnvContent(files: Files, o: Options): Option<string> {
    if o.EnvFile() in files then
      var kept := SetKv(files[o.EnvFile()], CHAIN, o.chain.Name());
      Some(if o.chain == Local then kept else SetKv(kept, CHAIN_ID, o.chain.Id()))
    else
      match Donor(files)
      case None => None
      case Some(donor) => Some(SetAll(donor, ChainValues(o.chain)))
  }

  /** .env.local.<chain> after step 1b, given .env.<chain>. */
  function SimContent(files: Files, o: Options, env: string): string {
    var base := if o.SimFile() in files then files[o.SimFile()] else SetAll(env, [(SIMULATED_TEE, "true"), ("EXT_PROXY_URL", "")]);
    SetAll(base, [(SIMULATED_TEE, "true"), (CHAIN, o.chain.Name()), (CHAIN_ID, o.chain.Id())])
  }

  function Scaffolded(files: Files, o: Options): Option<Files> {
    match EnvContent(files, o)
    case None => None
    case Some(env) =>
      Some(if o.UsesSim() then files[o.EnvFile() := env][o.SimFile() := SimContent(files, o, env)]
           else files[o.EnvFile() := if o.chain == Local then env else SetKv(env, SIMULATED_TEE, "false")])
  }

  // --- step 4: activation ------------------------------------------------------------------------------

  /** The glob .env.* */
  predicate IsCopy(name: string) {
    ".env." <= name
  }

  predicate IsBackup(name: string) {
    |name| >= 7 && name[|name| - 7..] == ".backup"
  }

  predicate SavedSomewhere(files: Files, content: string) {
    exists name :: name in files && IsCopy(name) && !IsBackup(name) && files[name] == content
  }

  function BackedUp(files: Files): Files {
    if ACTIVE in files && !SavedSomewhere(files, files[ACTIVE]) then files[BACKUP := files[ACTIVE]] else files
  }

  function WithLanguage(files: Files, o: Options): Files
    requires o.Source() in files
  {
    if o.language == "" then files else files[o.Source() := SetKv(files[o.Source()], LANGUAGE, o.language)]
  }

  /** The files after a run, and whether it reached the end. */
  datatype Result = Result(files: Files, ok: bool)

  function Activated(files: Files, o: Options, out: Outside): Result {
    if (o.language != "" && o.language !in out.languages) || (o.chain != Local && !out.addressesOk) then Result(files, false)
    else
      match Scaffolded(files, o)
      case None => Result(files, false)
      case Some(scaffolded) =>
        if o.chain != Local && !out.templatesOk then Result(scaffolded, false)
        else
          var named := WithLanguage(BackedUp(scaffolded), o);
          var language := GetVal(named[o.Source()], LANGUAGE);
          if language != "" && language !in out.languages then Result(named, false)
          else Result(named[ACTIVE := Installed(named[o.Source()], o)], true)
  }

  function Installed(text: string, o: Options): string {
    if Bound(text, CHAIN) then text else EnsureNl(text) + Glue(Binding(CHAIN, o.chain.Name()), "")
  }

  // --- the script's own form -----------------------------------------------------------------------------

  class Project {
    var files: Files

    /** set_kv on a file that exists. */
    method Set(key: string, value: string, name: string)
      requires name in files
      modifies this
      ensures files == old(files)[name := SetKv(old(files)[name], key, value)]
    {
      files := files[name := SetKv(files[name], key, value)];
    }

    method SetEach(kvs: seq<(string, string)>, name: string)
      requires name in files
      modifies this
      ensures files == old(files)[name := SetAll(old(files)[name], kvs)]
    {
      for i := 0 to |kvs|
        invariant name in files && files == old(files)[name := SetAll(old(files)[name], kvs[..i])]
      {
        assert kvs[..i + 1][..i] == kvs[..i];
        Set(kvs[i].0, kvs[i].1, name);
      }
      assert kvs[..|kvs|] == kvs;
    }

    /** Step 1; ok is false when there is nothing to clone from. */
    method PrepareEnv(o: Options) returns (ok: bool)
      modifies this
      ensures ok <==> EnvContent(old(files), o).Some?
      ensures files == if ok then old(files)[o.EnvFile() := EnvContent(old(files), o).value] else old(files)
    {
      hide SetKv, SetAll, ChainValues;
      var name := o.EnvFile();
      if name in files {
        Set(CHAIN, o.chain.Name(), name);
        if o.chain != Local { Set(CHAIN_ID, o.chain.Id(), name); }
      } else {
        if ACTIVE in files {
          files := files[name := files[ACTIVE]];
        } else if EXAMPLE in files {
          files := files[name := files[EXAMPLE]];
        } else {
          return false;
        }
        SetEach(ChainValues(o.chain), name);
      }
      ok := true;
    }

    /** Step 1b. */
    method PrepareSim(o: Options)
      requires o.EnvFile() in files
      modifies this
      ensures files == if o.UsesSim() then old(files)[o.SimFile() := SimContent(old(files), o, old(files)[o.EnvFile()])]
                       else if o.chain == Local then old(files)
                       else old(files)[o.EnvFile() := SetKv(old(files)[o.EnvFile()], SIMULATED_TEE, "false")]
    {
      hide SetKv, SetAll;
      if o.simulated && o.chain != Local {
        if o.SimFile() !in files {
          files := files[o.SimFile() := files[o.EnvFile()]];
          SetEach([(SIMULATED_TEE, "true"), ("EXT_PROXY_URL", "")], o.SimFile());
        }
        SetEach([(SIMULATED_TEE, "true"), (CHAIN, o.chain.Name()), (CHAIN_ID, o.chain.Id())], o.SimFile());
      } else if o.chain != Local {
        Set(SIMULATED_TEE, "false", o.EnvFile());
      }
    }

    /** The backup check: compares .env with every .env.* but the backups. */
    method BackUp()
      modifies this
      ensures files == BackedUp(old(files))
    {
      if ACTIVE in files {
        var names := files.Keys;
        var saved := false;
        while names != {} && !saved
          invariant names <= files.Keys && files == old(files)
          invariant saved ==> SavedSomewhere(files, files[ACTIVE])
          invariant !saved ==> forall n :: n in files && n !in names ==> !(IsCopy(n) && !IsBackup(n) && files[n] == files[ACTIVE])
          decreases names, !saved
        {
          var f :| f in names;
          names := names - {f};
          if IsCopy(f) && !IsBackup(f) && files[f] == files[ACTIVE] {
            saved := true;
          }
        }
        if !saved { files := files[BACKUP := files[ACTIVE]]; }
      }
    }

    method Activate(o: Options, out: Outside) returns (ok: bool)
      modifies this
      ensures Result(files, ok) == Activated(old(files), o, out)
    {
      hide SetKv, SetAll, GetVal, Bound, EnvContent, SimContent, SavedSomewhere, Installed;
      if o.language != "" && o.language !in out.languages { return false; }
      if o.chain != Local && !out.addressesOk { return false; }
      var env := PrepareEnv(o);
      if !env { return false; }
      PrepareSim(o);
      assert files == Scaffolded(old(files), o).value by { SimAfterEnv(old(files), o); }
      if o.chain != Local && !out.templatesOk { return false; }
      ScaffoldedFiles(old(files), o);
      NamesDistinct(o);
      BackUp();
      if o.language != "" { Set(LANGUAGE, o.language, o.Source()); }
      var language := GetVal(files[o.Source()], LANGUAGE);
      if language != "" && language !in out.languages { return false; }
      Install(o);
      ok := true;
    }

    /** cp SOURCE .env, and a CHAIN= line for one that lacks it. */
    method Install(o: Options)
      requires o.Source() in files
      modifies this
      ensures files == old(files)[ACTIVE := Installed(old(files)[o.Source()], o)]
    {
      files := files[ACTIVE := files[o.Source()]];
      var text := files[ACTIVE];
      if !Bound(text, CHAIN) {
        files := files[ACTIVE := EnsureNl(text) + Glue(Binding(CHAIN, o.chain.Name()), "")];
      }
    }
  }

  lemma NamesDistinct(o: Options)
    ensures o.EnvFile() != o.SimFile() && o.Source() != ACTIVE && o.Source() != BACKUP && o.EnvFile() != ACTIVE && o.SimFile() != ACTIVE
    ensures IsCopy(o.Source()) && !IsBackup(o.Source()) && IsCopy(BACKUP)
  {
    var name := o.chain.Name();
    assert |o.SimFile()| == 11 + |name| && |o.EnvFile()| == 5 + |name| && 5 <= |name| <= 8;
    assert o.EnvFile()[4] == '.' && o.SimFile()[4] == '.';
    assert name[|name| - 1] != 'p';
    assert o.Source()[|o.Source()| - 1] == name[|name| - 1];
    assert ".backup"[6] == 'p' && BACKUP[10] == 'p';
    assert ".env.local."[..5] == ".env.";
  }

  lemma SimAfterEnv(files: Files, o: Options)
    requires EnvContent(files, o).Some?
    ensures var env := EnvContent(files, o).value;
            SimContent(files[o.EnvFile() := env], o, env) == SimContent(files, o, env)
  {
    NamesDistinct(o);
    hide SetKv, SetAll, EnvContent;
  }

  lemma ScaffoldedFiles(files: Files, o: Options)
    requires Scaffolded(files, o).Some?
    ensures var s := Scaffolded(files, o).value;
            && o.Source() in s
            && (ACTIVE in files ==> ACTIVE in s && s[ACTIVE] == files[ACTIVE])
  {
    NamesDistinct(o);
    hide SetKv, SimContent, EnvContent;
  }

  // --- activation loses no edits ----------------------------------------------------------------------------

  ghost predicate Survives(files: Files, content: string) {
    exists name :: name in files && IsCopy(name) && files[name] == content
  }

  /** Before the call: --language is given, it would change a text equal to .env, the source env file
      holds that very text once scaffolded, and no other .env.* file does. */
  ghost predicate LosesEdits(files: Files, o: Options)
    requires ACTIVE in files && Scaffolded(files, o).Some?
  {
    var s, text := Scaffolded(files, o).value, files[ACTIVE];
    && o.language != "" && SetKv(text, LANGUAGE, o.language) != text
    && o.Source() in s && s[o.Source()] == text
    && forall name :: name in s && IsCopy(name) && name != o.Source() ==> s[name] != text
  }

  /** After a successful activation the text .env had before is still in some .env.* file or in
      .env.backup, whichever create, keep or rewrite path ran, unless LosesEdits foretold it. */
  lemma EditsSurvive(files: Files, o: Options, out: Outside)
    requires ACTIVE in files && Activated(files, o, out).ok
    ensures Survives(Activated(files, o, out).files, files[ACTIVE]) <==> !LosesEdits(files, o)
    ensures o.language == "" ==> Survives(Activated(files, o, out).files, files[ACTIVE])
  {
    hide SetKv, GetVal, Bound, Scaffolded, Installed;
    ScaffoldedFiles(files, o);
    NamesDistinct(o);
    var s, text := Scaffolded(files, o).value, files[ACTIVE];
    var b := BackedUp(s);
    var n := WithLanguage(b, o);
    var after := Activated(files, o, out).files;
    assert !IsCopy(ACTIVE) by { assert |ACTIVE| == 4; }
    assert forall name :: name in after && IsCopy(name) <==> name in n && IsCopy(name);
    assert forall name :: name in n && IsCopy(name) ==> after[name] == n[name];
    if name :| name in b && IsCopy(name) && name != o.Source() && b[name] == text {
      assert n[name] == text && after[name] == text;
    } else {
      assert s == b;
      assert SavedSomewhere(s, text);
      assert s[o.Source()] == text;
      if n[o.Source()] == text { assert after[o.Source()] == text; }
    }
  }

  // --- edits across activations -------------------------------------------------------------------------------

  /** .env rewritten by hand, then an activation; a round without an edit writes what is there. */
  datatype Round = Round(edit: string, o: Options, out: Outside)

  function Edited(files: Files, r: Round): Files {
    files[ACTIVE := r.edit]
  }

  function AfterRounds(files: Files, rounds: seq<Round>): Files {
    if rounds == [] then files
    else
      var r := rounds[|rounds| - 1];
      Activated(Edited(AfterRounds(files, rounds[..|rounds| - 1]), r), r.o, r.out).files
  }

  /** The activation came as far as the backup check, and found .env saved in no other file. */
  predicate FoundUnsaved(files: Files, r: Round) {
    var before := Edited(files, r);
    && (r.o.language == "" || r.o.language in r.out.languages) && (r.o.chain == Local || (r.out.addressesOk && r.out.templatesOk))
    && match Scaffolded(before, r.o)
       case None => false
       case Some(s) => !SavedSomewhere(s, r.edit)
  }

  /** The last edit that a round found unsaved; before any, what .env.backup held. */
  function LastUnsaved(files: Files, rounds: seq<Round>): Option<string> {
    if rounds == [] then (if BACKUP in files then Some(files[BACKUP]) else None)
    else
      var n := |rounds| - 1;
      if FoundUnsaved(AfterRounds(files, rounds[..n]), rounds[n]) then Some(rounds[n].edit) else LastUnsaved(files, rounds[..n])
  }

  function Lookup(files: Files, name: string): Option<string> {
    if name in files then Some(files[name]) else None
  }

  /** Foretold before a round: what it will make of an env file that is neither .env nor the backup.
      Scaffolding may create or re-assert it, --language rewrites the source. */
  function WillBe(files: Files, r: Round, name: string): Option<string> {
    var s := Scaffolded(Edited(files, r), r.o);
    if (r.o.language != "" && r.o.language !in r.out.languages) || (r.o.chain != Local && !r.out.addressesOk) || s.None? then Lookup(files, name)
    else if r.o.language != "" && name == r.o.Source() && name in s.value && (r.o.chain == Local || r.out.templatesOk)
      then Some(SetKv(s.value[name], LANGUAGE, r.o.language))
    else Lookup(s.value, name)
  }

  ghost predicate WillHoldBeside(files: Files, r: Round, content: string) {
    exists name :: IsCopy(name) && name != BACKUP && WillBe(files, r, name) == Some(content)
  }

  lemma RoundMakes(files: Files, r: Round, name: string)
    requires IsCopy(name) && name != BACKUP
    ensures Lookup(Activated(Edited(files, r), r.o, r.out).files, name) == WillBe(files, r, name)
  {
    hide SetKv, GetVal, Bound, Scaffolded, Installed, BackedUp, IsCopy;
    NamesDistinct(r.o);
    assert name != ACTIVE by { NotCopies(); }
    if Scaffolded(Edited(files, r), r.o).Some? {
      var s := Scaffolded(Edited(files, r), r.o).value;
      ScaffoldedFiles(Edited(files, r), r.o);
      BackupElsewhere(s, name);
      BackupElsewhere(s, r.o.Source());
    }
  }

  lemma NotCopies()
    ensures !IsCopy(ACTIVE)
  {
    assert |ACTIVE| == 4;
  }

  lemma BackupElsewhere(files: Files, name: string)
    requires name != BACKUP
    ensures Lookup(BackedUp(files), name) == Lookup(files, name)
  {}

  /** The env files of a chain are neither .env nor .env.backup. */
  lemma BackupStandsApart(o: Options)
    ensures o.EnvFile() != BACKUP && o.SimFile() != BACKUP && o.EnvFile() != ACTIVE && o.SimFile() != ACTIVE && ACTIVE != BACKUP
  {
    NamesDistinct(o);
    var name := o.chain.Name();
    assert name[|name| - 1] != 'p';
    assert o.EnvFile()[|o.EnvFile()| - 1] == name[|name| - 1] && o.SimFile()[|o.SimFile()| - 1] == name[|name| - 1];
    assert BACKUP[10] == 'p' && |BACKUP| == 11 && |ACTIVE| == 4;
  }

  lemma RoundBackup(files: Files, r: Round)
    ensures var after := Activated(Edited(files, r), r.o, r.out).files;
            (if BACKUP in after then Some(after[BACKUP]) else None) ==
            if FoundUnsaved(files, r) then Some(r.edit) else if BACKUP in files then Some(files[BACKUP]) else None
  {
    hide SetKv, SetAll, GetVal, Bound, EnvContent, SimContent, Installed, SavedSomewhere;
    BackupStandsApart(r.o);
    var before := Edited(files, r);
    if Scaffolded(before, r.o).Some? {
      ScaffoldedFiles(before, r.o);
    }
  }

  lemma {:induction false} BackupIsLastUnsaved(files: Files, rounds: seq<Round>)
    ensures var after := AfterRounds(files, rounds);
            (if BACKUP in after then Some(after[BACKUP]) else None) == LastUnsaved(files, rounds)
  {
    if rounds != [] {
      hide Activated, FoundUnsaved;
      var n := |rounds| - 1;
      BackupIsLastUnsaved(files, rounds[..n]);
      RoundBackup(AfterRounds(files, rounds[..n]), rounds[n]);
    }
  }

  /** Over any rounds of edits and activations, successful or not, with or without --language: a
      text will still be there after the last round if and only if that round is foretold to leave
      it in some chain's env file, or it is the last edit that a round found unsaved. The single
      backup keeps one such edit. */
  lemma EditsAcrossActivations(files: Files, rounds: seq<Round>, last: Round, content: string)
    ensures Survives(AfterRounds(files, rounds + [last]), content) <==>
            WillHoldBeside(AfterRounds(files, rounds), last, content) || LastUnsaved(files, rounds + [last]) == Some(content)
  {
    var before := AfterRounds(files, rounds);
    var all := rounds + [last];
    assert all[..|all| - 1] == rounds;
    BackupIsLastUnsaved(files, all);
    hide LastUnsaved, Activated, WillBe;
    var after := Activated(Edited(before, last), last.o, last.out).files;
    assert AfterRounds(files, all) == after;
    assert IsCopy(BACKUP) by { NamesDistinct(Options(Local, false, "")); }
    forall name | IsCopy(name) && name != BACKUP
      ensures Lookup(after, name) == WillBe(before, last, name)
    {
      RoundMakes(before, last, name);
    }
    assert forall name :: name in after <==> Lookup(after, name).Some?;
    if Survives(after, content) {
      var name :| name in after && IsCopy(name) && after[name] == content;
      assert Lookup(after, name) == Some(content);
    }
    if name :| IsCopy(name) && name != BACKUP && WillBe(before, last, name) == Some(content) {
      assert Lookup(after, name) == Some(content);
    }
  }

  /** So two edits of .env with an activation after each lose the first, without --language. */
  lemma SecondEditLosesFirst(first: string, second: string)
    requires var t := SetKv("", CHAIN, "local"); first != second && first != t && second != t
    ensures var files := map[".env.local" := SetKv("", CHAIN, "local")];
            var o, out := Options(Local, false, ""), Outside(true, true, {});
            var after := AfterRounds(files, [Round(first, o, out), Round(second, o, out)]);
            Survives(after, second) && !Survives(after, first)
  {
    hide SetKv, GetVal, Bound, Activated, AfterRounds;
    LocalText();
    TwoRounds(SetKv("", CHAIN, "local"), first, second);
    assert IsCopy(BACKUP) && !IsCopy(ACTIVE) by { NamesDistinct(Options(Local, false, "")); assert |ACTIVE| == 4; }
  }

  lemma LocalText()
    ensures var t := SetKv("", CHAIN, "local");
            SetKv(t, CHAIN, "local") == t && Bound(t, CHAIN) && GetVal(t, LANGUAGE) == ""
  {
    PlainConstants(Local);
    assert GetVal("", LANGUAGE) == "";
    hide SetKv, GetVal, Bound, PlainKey, PlainValue;
    PutGet("", CHAIN, "local", LANGUAGE);
    SecondOverwritesFirst("", CHAIN, "local", "local");
    PutGet("", CHAIN, "local", CHAIN);
  }

  lemma TwoRounds(t: string, first: string, second: string)
    requires first != t && second != t && SetKv(t, CHAIN, "local") == t && Bound(t, CHAIN) && GetVal(t, LANGUAGE) == ""
    ensures var o, out := Options(Local, false, ""), Outside(true, true, {});
            var after := AfterRounds(map[".env.local" := t], [Round(first, o, out), Round(second, o, out)]);
            after.Keys == {".env.local", BACKUP, ACTIVE} && after[".env.local"] == t && after[BACKUP] == second && after[ACTIVE] == t
  {
    hide SetKv, GetVal, Bound, Activated;
    var o, out := Options(Local, false, ""), Outside(true, true, {});
    var files := map[".env.local" := t];
    var r1, r2 := Round(first, o, out), Round(second, o, out);
    NamesDistinct(o);
    BackupStandsApart(o);
    LocalRound(files, r1, t);
    var one := files[BACKUP := first][ACTIVE := t];
    LocalRound(one, r2, t);
    assert [r1, r2][..1] == [r1] && [r1][..0] == [];
    assert AfterRounds(files, [r1]) == one;
    assert o.EnvFile() == ".env.local";
  }

  /** A round on a local chain file that is as it should be: the edit goes to the backup. */
  lemma LocalRound(files: Files, r: Round, t: string)
    requires r.o == Options(Local, false, "") && r.edit != t
    requires ".env.local" in files && files[".env.local"] == t && SetKv(t, CHAIN, "local") == t
    requires Bound(t, CHAIN) && GetVal(t, LANGUAGE) == ""
    requires forall name :: name in files ==> name in {".env.local", BACKUP, ACTIVE}
    ensures Activated(Edited(files, r), r.o, r.out).files == files[BACKUP := r.edit][ACTIVE := t]
  {
    hide SetKv, GetVal, Bound;
    NamesDistinct(r.o);
    BackupStandsApart(r.o);
    var before := Edited(files, r);
    assert r.o.EnvFile() == ".env.local" == r.o.Source();
    assert Scaffolded(before, r.o) == Some(before[".env.local" := t]);
    assert before[".env.local" := t] == before;
    assert !IsCopy(ACTIVE) by { assert |ACTIVE| == 4; }
    assert IsBackup(BACKUP) by { assert |BACKUP| == 11 && BACKUP[4..] == ".backup"; }
    assert !SavedSomewhere(before, r.edit);
  }

  // --- what activation leaves active --------------------------------------------------------------------------

  lemma PlainConstants(c: Chain)
    ensures PlainKey(CHAIN) && PlainKey(CHAIN_ID) && PlainKey(SIMULATED_TEE) && PlainKey(LANGUAGE)
    ensures PlainValue(c.Name()) && PlainValue(c.Id()) && PlainValue("true") && PlainValue("false")
    ensures CHAIN != CHAIN_ID && CHAIN != SIMULATED_TEE && CHAIN_ID != SIMULATED_TEE
    ensures LANGUAGE != CHAIN && LANGUAGE != CHAIN_ID && LANGUAGE != SIMULATED_TEE
  {
    PlainKeys();
    PlainChain(c);
    hide PlainKey, PlainValue;
    assert |CHAIN| == 5 && |CHAIN_ID| == 8 && |SIMULATED_TEE| == 13 && |LANGUAGE| == 8 && CHAIN_ID[0] != LANGUAGE[0];
  }

  lemma PlainKeys()
    ensures PlainKey(CHAIN) && PlainKey(CHAIN_ID) && PlainKey(SIMULATED_TEE) && PlainKey(LANGUAGE)
  {}

  lemma PlainChain(c: Chain)
    ensures PlainValue(c.Name()) && PlainValue(c.Id()) && PlainValue("true") && PlainValue("false")
  {}

  predicate PlainPairs(kvs: seq<(string, string)>) {
    forall i :: 0 <= i < |kvs| ==> PlainKey(kvs[i].0) && PlainValue(kvs[i].1)
  }

  /** The list leaves `key` at `value`. */
  ghost predicate Leaves(kvs: seq<(string, string)>, key: string, value: string) {
    exists i :: 0 <= i < |kvs| && kvs[i] == (key, value) && forall j :: i < j < |kvs| ==> kvs[j].0 != key
  }

  lemma {:induction false} SetAllLeaves(t: string, kvs: seq<(string, string)>, key: string, value: string)
    requires PlainPairs(kvs) && PlainKey(key) && Leaves(kvs, key, value)
    ensures GetVal(SetAll(t, kvs), key) == value && Bound(SetAll(t, kvs), key)
  {
    var n := |kvs| - 1;
    hide SetKv, GetVal, Bound, PlainKey, PlainValue;
    var i :| 0 <= i < |kvs| && kvs[i] == (key, value) && forall j :: i < j < |kvs| ==> kvs[j].0 != key;
    PutGet(SetAll(t, kvs[..n]), kvs[n].0, kvs[n].1, key);
    if i < n {
      assert kvs[..n][i] == (key, value);
      SetAllLeaves(t, kvs[..n], key, value);
      StaysBound(SetAll(t, kvs[..n]), kvs[n].0, kvs[n].1, key);
    }
  }

  lemma PlainJoin(a: string, b: string, c: string)
    requires PlainValue(a) && PlainValue(b) && PlainValue(c)
    ensures PlainValue(a + b + c)
  {}

  lemma PlainUrls(c: Chain)
    ensures PlainValue("https://" + c.Name() + "-api.flare.network/ext/C/rpc")
    ensures PlainValue("./config/" + c.Name() + "/deployed-addresses.json")
    ensures PlainValue("https://tee-proxy-" + c.Name() + "-1.flare.rocks")
  {
    PlainChain(c);
    PlainUrlParts();
    hide PlainValue;
    PlainJoin("https://", c.Name(), "-api.flare.network/ext/C/rpc");
    PlainJoin("./config/", c.Name(), "/deployed-addresses.json");
    PlainJoin("https://tee-proxy-", c.Name(), "-1.flare.rocks");
  }

  lemma PlainUrlParts()
    ensures PlainValue("https://") && PlainValue("-api.flare.network/ext/C/rpc")
    ensures PlainValue("./config/") && PlainValue("/deployed-addresses.json")
    ensures PlainValue("https://tee-proxy-") && PlainValue("-1.flare.rocks")
  {
    PlainChainUrl();
    PlainAddresses();
    PlainProxyUrl();
    hide PlainValue;
  }

  lemma PlainChainUrl()
    ensures PlainValue("https://") && PlainValue("-api.flare.network/ext/C/rpc")
  {}

  lemma PlainAddresses()
    ensures PlainValue("./config/") && PlainValue("/deployed-addresses.json")
  {}

  lemma PlainProxyUrl()
    ensures PlainValue("https://tee-proxy-") && PlainValue("-1.flare.rocks")
  {}

  lemma PlainNames()
    ensures PlainKey("LOCAL_MODE") && PlainKey("CHAIN_URL") && PlainKey("NORMAL_PROXY_URL")
    ensures PlainKey("ADDRESSES_FILE") && PlainKey("EXT_PROXY_URL")
    ensures PlainValue("http://127.0.0.1:8545") && PlainValue("http://localhost:6662") && PlainValue("")
  {}

  lemma ChainValuesPlain(c: Chain)
    ensures PlainPairs(ChainValues(c))
  {
    PlainConstants(Local);
    PlainConstants(c);
    PlainUrls(c);
    PlainNames();
    hide PlainKey, PlainValue;
    var kvs := ChainValues(c);
    forall i | 0 <= i < |kvs| ensures PlainKey(kvs[i].0) && PlainValue(kvs[i].1) {
      assert i == 0 || i == 1 || i == 2 || i == 3 || i == 4 || i == 5 || i == 6 || i == 7;
    }
  }

  lemma ChainValuesLeave(c: Chain)
    ensures Leaves(ChainValues(c), CHAIN, c.Name()) && Leaves(ChainValues(c), CHAIN_ID, c.Id())
    ensures Leaves(ChainValues(c), SIMULATED_TEE, if c == Local then "true" else "false")
  {
    var kvs := ChainValues(c);
    assert |kvs| == 8 && kvs[0] == (CHAIN, c.Name());
    assert kvs[2] == (SIMULATED_TEE, if c == Local then "true" else "false") && kvs[3] == (CHAIN_ID, c.Id());
    assert |CHAIN| == 5 && |SIMULATED_TEE| == 13 && |CHAIN_ID| == 8 && SIMULATED_TEE[0] == 'S';
    forall j | 1 <= j < 8 ensures |kvs[j].0| >= 8 && (j > 3 ==> |kvs[j].0| >= 9) && (j > 2 ==> kvs[j].0[0] != 'S') {
      assert |"LOCAL_MODE"| == 10 && |"CHAIN_URL"| == 9 && |"NORMAL_PROXY_URL"| == 16 && |"ADDRESSES_FILE"| == 14 && |"EXT_PROXY_URL"| == 13;
    }
  }

  /** The text names its chain and, off the local devnet, its id and mode. */
  ghost predicate NamesChain(t: string, o: Options) {
    && Bound(t, CHAIN) && GetVal(t, CHAIN) == o.chain.Name()
    && (o.chain != Local ==>
          && GetVal(t, CHAIN_ID) == o.chain.Id()
          && GetVal(t, SIMULATED_TEE) == if o.simulated then "true" else "false")
  }

  lemma EnvNamesChain(files: Files, o: Options)
    requires EnvContent(files, o).Some?
    ensures var t := EnvContent(files, o).value;
            && Bound(t, CHAIN) && GetVal(t, CHAIN) == o.chain.Name()
            && (o.chain != Local ==> GetVal(t, CHAIN_ID) == o.chain.Id())
  {
    PlainConstants(o.chain);
    ChainValuesPlain(o.chain);
    ChainValuesLeave(o.chain);
    hide SetKv, SetAll, GetVal, Bound, PlainKey, PlainValue, ChainValues, Leaves;
    if o.EnvFile() in files {
      var t := files[o.EnvFile()];
      var kept := SetKv(t, CHAIN, o.chain.Name());
      PutGet(t, CHAIN, o.chain.Name(), CHAIN);
      PutGet(kept, CHAIN_ID, o.chain.Id(), CHAIN);
      PutGet(kept, CHAIN_ID, o.chain.Id(), CHAIN_ID);
      StaysBound(kept, CHAIN_ID, o.chain.Id(), CHAIN);
    } else {
      var donor := Donor(files).value;
      SetAllLeaves(donor, ChainValues(o.chain), CHAIN, o.chain.Name());
      SetAllLeaves(donor, ChainValues(o.chain), CHAIN_ID, o.chain.Id());
    }
  }

  lemma SimNamesChain(files: Files, o: Options, env: string)
    requires o.UsesSim()
    ensures NamesChain(SimContent(files, o, env), o)
  {
    PlainConstants(o.chain);
    var kvs := [(SIMULATED_TEE, "true"), (CHAIN, o.chain.Name()), (CHAIN_ID, o.chain.Id())];
    assert kvs[0] == (SIMULATED_TEE, "true") && kvs[1] == (CHAIN, o.chain.Name()) && kvs[2] == (CHAIN_ID, o.chain.Id());
    hide SetKv, SetAll, GetVal, Bound, PlainKey, PlainValue;
    var base := if o.SimFile() in files then files[o.SimFile()] else SetAll(env, [(SIMULATED_TEE, "true"), ("EXT_PROXY_URL", "")]);
    SetAllLeaves(base, kvs, SIMULATED_TEE, "true");
    SetAllLeaves(base, kvs, CHAIN, o.chain.Name());
    SetAllLeaves(base, kvs, CHAIN_ID, o.chain.Id());
  }

  lemma SourceNamesChain(files: Files, o: Options)
    requires Scaffolded(files, o).Some?
    ensures o.Source() in Scaffolded(files, o).value && NamesChain(Scaffolded(files, o).value[o.Source()], o)
  {
    NamesDistinct(o);
    EnvNamesChain(files, o);
    PlainConstants(o.chain);
    var env := EnvContent(files, o).value;
    if o.UsesSim() {
      hide SimContent, EnvContent;
      SimNamesChain(files, o, env);
    } else if o.chain != Local {
      hide SetKv, GetVal, Bound, PlainKey, PlainValue, EnvContent;
      PutGet(env, SIMULATED_TEE, "false", CHAIN);
      PutGet(env, SIMULATED_TEE, "false", CHAIN_ID);
      PutGet(env, SIMULATED_TEE, "false", SIMULATED_TEE);
      StaysBound(env, SIMULATED_TEE, "false", CHAIN);
    }
  }

  lemma LanguageKeepsChain(t: string, o: Options)
    requires NamesChain(t, o) && PlainValue(o.language)
    ensures NamesChain(SetKv(t, LANGUAGE, o.language), o)
    ensures GetVal(SetKv(t, LANGUAGE, o.language), LANGUAGE) == o.language
  {
    PlainConstants(o.chain);
    hide SetKv, GetVal, Bound, PlainKey, PlainValue;
    PutGet(t, LANGUAGE, o.language, CHAIN);
    PutGet(t, LANGUAGE, o.language, CHAIN_ID);
    PutGet(t, LANGUAGE, o.language, SIMULATED_TEE);
    PutGet(t, LANGUAGE, o.language, LANGUAGE);
    StaysBound(t, LANGUAGE, o.language, CHAIN);
  }

  /** After a successful activation .env is a verbatim copy of its source, so the script's appended
      CHAIN= line is never needed, and it names the chain, id, mode and language asked for. */
  lemma ActiveNamesChain(files: Files, o: Options, out: Outside)
    requires Activated(files, o, out).ok && PlainValue(o.language)
    ensures var after := Activated(files, o, out).files;
            && ACTIVE in after && o.Source() in after && after[ACTIVE] == after[o.Source()]
            && NamesChain(after[ACTIVE], o)
            && (o.language != "" ==> GetVal(after[ACTIVE], LANGUAGE) == o.language)
  {
    hide Activated, Scaffolded, SetKv, GetVal, NamesChain, Installed;
    ActivatedSource(files, o, out);
    SourceNamesChain(files, o);
    var t := Scaffolded(files, o).value[o.Source()];
    LanguageKeepsChain(t, o);
    var named := if o.language == "" then t else SetKv(t, LANGUAGE, o.language);
    InstalledVerbatim(named, o);
  }

  lemma ActivatedSource(files: Files, o: Options, out: Outside)
    requires Activated(files, o, out).ok
    ensures Scaffolded(files, o).Some? && o.Source() in Scaffolded(files, o).value
    ensures var t := Scaffolded(files, o).value[o.Source()];
            var named := if o.language == "" then t else SetKv(t, LANGUAGE, o.language);
            var after := Activated(files, o, out).files;
            && ACTIVE in after && after[ACTIVE] == Installed(named, o)
            && o.Source() in after && after[o.Source()] == named
  {
    hide Scaffolded, SetKv, GetVal, Installed, BackedUp, IsCopy;
    ScaffoldedFiles(files, o);
    NamesDistinct(o);
    BackupElsewhere(Scaffolded(files, o).value, o.Source());
  }

  lemma InstalledVerbatim(t: string, o: Options)
    requires NamesChain(t, o)
    ensures Installed(t, o) == t
  {}

  lemma ScaffoldKeepsSettings(files: Files, o: Options, key: string)
    requires Scaffolded(files, o).Some? && o.Source() in files
    requires PlainKey(key) && key !in {CHAIN, CHAIN_ID, SIMULATED_TEE}
    ensures o.Source() in Scaffolded(files, o).value
    ensures GetVal(Scaffolded(files, o).value[o.Source()], key) == GetVal(files[o.Source()], key)
  {
    hide SetKv, SetAll, GetVal, Bound, PlainKey, PlainValue, ChainValues;
    PlainConstants(o.chain);
    NamesDistinct(o);
    var t, before := Scaffolded(files, o).value[o.Source()], files[o.Source()];
    if o.UsesSim() {
      var kvs := [(SIMULATED_TEE, "true"), (CHAIN, o.chain.Name()), (CHAIN_ID, o.chain.Id())];
      assert t == SetAll(before, kvs);
      SetAllFrame(before, kvs, key);
    } else {
      var named := SetKv(before, CHAIN, o.chain.Name());
      var numbered := if o.chain == Local then named else SetKv(named, CHAIN_ID, o.chain.Id());
      PutGet(before, CHAIN, o.chain.Name(), key);
      PutGet(named, CHAIN_ID, o.chain.Id(), key);
      PutGet(numbered, SIMULATED_TEE, "false", key);
      assert t == if o.chain == Local then numbered else SetKv(numbered, SIMULATED_TEE, "false");
    }
  }

  /** Activating from an env file that exists, the live one or the simulated one, keeps every other
      setting in it. */
  lemma KeptSettingsUntouched(files: Files, o: Options, out: Outside, key: string)
    requires Activated(files, o, out).ok && PlainValue(o.language)
    requires o.Source() in files
    requires PlainKey(key) && key !in {CHAIN, CHAIN_ID, SIMULATED_TEE, LANGUAGE}
    ensures GetVal(Activated(files, o, out).files[ACTIVE], key) == GetVal(files[o.Source()], key)
  {
    hide Activated, Scaffolded, SetKv, GetVal, Bound, PlainKey, PlainValue, Installed, NamesChain;
    ActivatedSource(files, o, out);
    ActiveNamesChain(files, o, out);
    ScaffoldKeepsSettings(files, o, key);
    PlainKeys();
    PutGet(Scaffolded(files, o).value[o.Source()], LANGUAGE, o.language, key);
  }

  lemma {:induction false} SetAllFrame(t: string, kvs: seq<(string, string)>, key: string)
    requires PlainPairs(kvs) && PlainKey(key) && forall i :: 0 <= i < |kvs| ==> kvs[i].0 != key
    ensures GetVal(SetAll(t, kvs), key) == GetVal(t, key)
  {
    if kvs != [] {
      var n := |kvs| - 1;
      hide SetKv, GetVal, PlainKey, PlainValue;
      SetAllFrame(t, kvs[..n], key);
      PutGet(SetAll(t, kvs[..n]), kvs[n].0, kvs[n].1, key);
    }
  }

  /** With --language the text can be lost: here .env and the only env file both hold it, and the
      switch from go to typescript rewrites one and then copies it over the other. */
  lemma LanguageLosesEdits()
    ensures var t := SetKv(SetKv("", LANGUAGE, "go"), CHAIN, "local");
            var files, o := map[ACTIVE := t, ".env.local" := t], Options(Local, false, "typescript");
            var r := Activated(files, o, Outside(true, true, {"go", "typescript"}));
            r.ok && LosesEdits(files, o) && !Survives(r.files, t)
  {
    var empty := SetKv("", LANGUAGE, "go");
    var t := SetKv(empty, CHAIN, "local");
    var files, o := map[ACTIVE := t, ".env.local" := t], Options(Local, false, "typescript");
    var out := Outside(true, true, {"go", "typescript"});
    PlainConstants(Local);
    PlainLanguages();
    NamesDistinct(o);
    hide SetKv, GetVal, Bound, PlainKey, PlainValue;
    assert o.EnvFile() == ".env.local";
    SecondOverwritesFirst(empty, CHAIN, "local", "local");
    PutGet("", LANGUAGE, "go", LANGUAGE);
    PutGet(empty, CHAIN, "local", LANGUAGE);
    PutGet(t, LANGUAGE, "typescript", LANGUAGE);
    assert Scaffolded(files, o) == Some(files[".env.local" := t]);
    assert files[".env.local" := t] == files;
    assert Activated(files, o, out).ok;
    EditsSurvive(files, o, out);
  }

  lemma PlainLanguages()
    ensures PlainValue("go") && PlainValue("typescript")
  {}

  // --- a second run ---------------------------------------------------------------------------------------------

  lemma {:induction false} SetAllHolds(t: string, kvs: seq<(string, string)>, key: string, value: string)
    requires PlainPairs(kvs) && PlainKey(key) && PlainValue(value) && Leaves(kvs, key, value)
    ensures Holds(SetAll(t, kvs), key, value)
  {
    var n := |kvs| - 1;
    hide SetKv, Holds, PlainKey, PlainValue;
    var i :| 0 <= i < |kvs| && kvs[i] == (key, value) && forall j :: i < j < |kvs| ==> kvs[j].0 != key;
    if i == n {
      SetHolds(SetAll(t, kvs[..n]), key, value);
    } else {
      assert kvs[..n][i] == (key, value);
      SetAllHolds(t, kvs[..n], key, value);
      HoldsThrough(SetAll(t, kvs[..n]), key, value, kvs[n].0, kvs[n].1);
    }
  }

  /** A file in which the script would re-assert nothing but what is there. */
  ghost predicate HoldsChain(t: string, o: Options) {
    Holds(t, CHAIN, o.chain.Name()) && (o.chain != Local ==> Holds(t, CHAIN_ID, o.chain.Id()))
  }

  lemma HoldsChainThrough(t: string, o: Options, key: string, value: string)
    requires HoldsChain(t, o) && PlainKey(key) && PlainValue(value) && key != CHAIN && key != CHAIN_ID
    ensures HoldsChain(SetKv(t, key, value), o)
  {
    PlainConstants(o.chain);
    hide Holds, PlainKey, PlainValue, SetKv;
    HoldsThrough(t, CHAIN, o.chain.Name(), key, value);
    if o.chain != Local { HoldsThrough(t, CHAIN_ID, o.chain.Id(), key, value); }
  }

  lemma EnvHoldsChain(files: Files, o: Options)
    requires EnvContent(files, o).Some?
    ensures HoldsChain(EnvContent(files, o).value, o)
  {
    PlainConstants(o.chain);
    ChainValuesPlain(o.chain);
    ChainValuesLeave(o.chain);
    hide SetKv, SetAll, Holds, PlainKey, PlainValue, ChainValues, Leaves;
    if o.EnvFile() in files {
      var t := files[o.EnvFile()];
      var kept := SetKv(t, CHAIN, o.chain.Name());
      SetHolds(t, CHAIN, o.chain.Name());
      SetHolds(kept, CHAIN_ID, o.chain.Id());
      HoldsThrough(kept, CHAIN, o.chain.Name(), CHAIN_ID, o.chain.Id());
    } else {
      var donor := Donor(files).value;
      SetAllHolds(donor, ChainValues(o.chain), CHAIN, o.chain.Name());
      SetAllHolds(donor, ChainValues(o.chain), CHAIN_ID, o.chain.Id());
    }
  }

  lemma SimHoldsChain(files: Files, o: Options, env: string)
    requires o.UsesSim()
    ensures HoldsChain(SimContent(files, o, env), o) && Holds(SimContent(files, o, env), SIMULATED_TEE, "true")
  {
    PlainConstants(o.chain);
    var kvs := [(SIMULATED_TEE, "true"), (CHAIN, o.chain.Name()), (CHAIN_ID, o.chain.Id())];
    assert kvs[0] == (SIMULATED_TEE, "true") && kvs[1] == (CHAIN, o.chain.Name()) && kvs[2] == (CHAIN_ID, o.chain.Id());
    hide SetKv, SetAll, Holds, PlainKey, PlainValue;
    var base := if o.SimFile() in files then files[o.SimFile()] else SetAll(env, [(SIMULATED_TEE, "true"), ("EXT_PROXY_URL", "")]);
    SetAllHolds(base, kvs, SIMULATED_TEE, "true");
    SetAllHolds(base, kvs, CHAIN, o.chain.Name());
    SetAllHolds(base, kvs, CHAIN_ID, o.chain.Id());
  }

  /** The env files of the chain are as a scaffolding leaves them. */
  ghost predicate InOrder(files: Files, o: Options) {
    && o.EnvFile() in files && HoldsChain(files[o.EnvFile()], o)
    && (o.UsesSim() ==> o.SimFile() in files && HoldsChain(files[o.SimFile()], o) && Holds(files[o.SimFile()], SIMULATED_TEE, "true"))
    && (!o.UsesSim() && o.chain != Local ==> Holds(files[o.EnvFile()], SIMULATED_TEE, "false"))
  }

  lemma ScaffoldPutsInOrder(files: Files, o: Options)
    requires Scaffolded(files, o).Some?
    ensures InOrder(Scaffolded(files, o).value, o)
  {
    hide SetKv, SetAll, Holds, PlainKey, PlainValue, EnvContent, SimContent, HoldsChain;
    NamesDistinct(o);
    PlainConstants(o.chain);
    EnvHoldsChain(files, o);
    var env := EnvContent(files, o).value;
    if o.UsesSim() {
      SimHoldsChain(files, o, env);
    } else if o.chain != Local {
      HoldsChainThrough(env, o, SIMULATED_TEE, "false");
      SetHolds(env, SIMULATED_TEE, "false");
    }
  }

  /** Scaffolding what is in order changes nothing. */
  lemma OrderIsKept(files: Files, o: Options)
    requires InOrder(files, o)
    ensures Scaffolded(files, o) == Some(files)
  {
    hide SetKv, Holds;
    NamesDistinct(o);
    var env := files[o.EnvFile()];
    SettingWhatIsSet(env, CHAIN, o.chain.Name());
    if o.chain != Local { SettingWhatIsSet(env, CHAIN_ID, o.chain.Id()); }
    assert EnvContent(files, o) == Some(env);
    if o.UsesSim() {
      var sim := files[o.SimFile()];
      SettingWhatIsSet(sim, SIMULATED_TEE, "true");
      SettingWhatIsSet(sim, CHAIN, o.chain.Name());
      SettingWhatIsSet(sim, CHAIN_ID, o.chain.Id());
      SetAllThree(sim, (SIMULATED_TEE, "true"), (CHAIN, o.chain.Name()), (CHAIN_ID, o.chain.Id()));
      assert SimContent(files, o, env) == sim;
      assert files[o.EnvFile() := env][o.SimFile() := sim] == files;
    } else {
      if o.chain != Local { SettingWhatIsSet(env, SIMULATED_TEE, "false"); }
      assert files[o.EnvFile() := env] == files;
    }
  }

  lemma SetAllThree(t: string, a: (string, string), b: (string, string), c: (string, string))
    ensures SetAll(t, [a, b, c]) == SetKv(SetKv(SetKv(t, a.0, a.1), b.0, b.1), c.0, c.1)
  {
    hide SetKv;
    var kvs := [a, b, c];
    assert kvs[..2][..1] == [a] && kvs[..2][1] == b && [a][..0] == [];
    assert SetAll(t, [a]) == SetKv(t, a.0, a.1);
    assert SetAll(t, kvs[..2]) == SetKv(SetAll(t, [a]), b.0, b.1);
  }

  lemma LanguageKeepsOrder(files: Files, o: Options)
    requires InOrder(files, o) && PlainValue(o.language) && o.language != ""
    ensures o.Source() in files && InOrder(WithLanguage(files, o), o)
    ensures Holds(WithLanguage(files, o)[o.Source()], LANGUAGE, o.language)
  {
    hide SetKv, Holds, PlainKey, PlainValue, HoldsChain;
    NamesDistinct(o);
    PlainConstants(o.chain);
    var t := files[o.Source()];
    HoldsChainThrough(t, o, LANGUAGE, o.language);
    SetHolds(t, LANGUAGE, o.language);
    if o.UsesSim() {
      HoldsThrough(t, SIMULATED_TEE, "true", LANGUAGE, o.language);
    } else if o.chain != Local {
      HoldsThrough(t, SIMULATED_TEE, "false", LANGUAGE, o.language);
    }
  }

  /** After a successful run the chain's files are in order, .env is a copy of its source, and the
      source holds the language asked for. */
  lemma ActivatedInOrder(files: Files, o: Options, out: Outside)
    requires Activated(files, o, out).ok && PlainValue(o.language)
    ensures var after := Activated(files, o, out).files;
            && InOrder(after, o) && o.Source() in after && (o.language != "" ==> Holds(after[o.Source()], LANGUAGE, o.language))
  {
    hide SetKv, Holds, HoldsChain, GetVal, Bound, PlainValue, Scaffolded, SavedSomewhere, Installed;
    ScaffoldPutsInOrder(files, o);
    ScaffoldedFiles(files, o);
    BackupStandsApart(o);
    var backed := BackedUp(Scaffolded(files, o).value);
    assert InOrder(backed, o);
    if o.language != "" { LanguageKeepsOrder(backed, o); }
    assert InOrder(WithLanguage(backed, o), o);
  }

  /** Activation settles: after a successful run, another with the same arguments and surroundings
      succeeds and leaves every file as it is. */
  lemma ActivationIsIdempotent(files: Files, o: Options, out: Outside)
    requires Activated(files, o, out).ok && PlainValue(o.language)
    ensures Activated(Activated(files, o, out).files, o, out) == Activated(files, o, out)
  {
    hide SetKv, Holds, HoldsChain, GetVal, PlainValue, Scaffolded, InOrder, NamesChain;
    var after := Activated(files, o, out).files;
    ActivatedInOrder(files, o, out);
    ActiveNamesChain(files, o, out);
    OrderIsKept(after, o);
    NamesDistinct(o);
    InstalledVerbatim(after[o.Source()], o);
    if o.language != "" { SettingWhatIsSet(after[o.Source()], LANGUAGE, o.language); }
    assert SavedSomewhere(after, after[ACTIVE]);
    assert WithLanguage(after, o) == after;
    SourceLanguage(files, o, out);
    assert after[ACTIVE := after[o.Source()]] == after;
  }

  /** The language the source names is one that exists. */
  lemma SourceLanguage(files: Files, o: Options, out: Outside)
    requires Activated(files, o, out).ok
    ensures var after := Activated(files, o, out).files;
            o.Source() in after && var l := GetVal(after[o.Source()], LANGUAGE); l == "" || l in out.languages
  {
    hide SetKv, GetVal, Scaffolded, Installed, SavedSomewhere;
    ScaffoldedFiles(files, o);
    NamesDistinct(o);
  }
}
