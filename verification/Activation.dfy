/** What activating a chain leaves in the env files, read setting by setting: scripts/use-chain.sh
    and the chain table of scripts/chain-env.sh. */
module Activation {
  import opened Wrappers
  import opened EnvText
  import opened UseChain

  // --- what a newly created file carries over ----------------------------------------------------

  /** The settings that step 1 rewrites in a file it creates. */
  predicate ChainOwned(key: string) {
    || key == "CHAIN" || key == "LOCAL_MODE" || key == "SIMULATED_TEE" || key == "CHAIN_ID"
    || key == "CHAIN_URL" || key == "ADDRESSES_FILE" || key == "NORMAL_PROXY_URL" || key == "EXT_PROXY_URL"
  }

  /** Step 1 refuses exactly when there is neither the chain's file nor one to clone. */
  lemma RefusesWithoutDonor(files: Files, o: Options)
    ensures Scaffolded(files, o).None? <==> o.EnvFile() !in files && ".env" !in files && ".env.example" !in files
  {
    hide SetKv, SetAll, SimContent;
  }

  lemma ValuesOwned(c: Chain)
    ensures |ChainValues(c)| == 8 && forall i :: 0 <= i < 8 ==> ChainOwned(ChainValues(c)[i].0)
  {
    forall i | 0 <= i < 8 ensures ChainOwned(ChainValues(c)[i].0) {
      assert i == 0 || i == 1 || i == 2 || i == 3 || i == 4 || i == 5 || i == 6 || i == 7;
    }
  }

  lemma OwnedOrOther(key: string)
    requires !ChainOwned(key)
    ensures key != CHAIN && key != CHAIN_ID && key != SIMULATED_TEE
  {}

  /** A created file reads, for every setting that is not the chain's, as .env did, and as
      .env.example did if there was no .env. */
  lemma CreatedCarriesOver(files: Files, o: Options, key: string)
    requires o.EnvFile() !in files && PlainKey(key) && !ChainOwned(key)
    requires ".env" in files || ".env.example" in files
    ensures Scaffolded(files, o).Some? && o.EnvFile() in Scaffolded(files, o).value
    ensures GetVal(Scaffolded(files, o).value[o.EnvFile()], key) ==
            GetVal(if ".env" in files then files[".env"] else files[".env.example"], key)
  {
    hide SetKv, SetAll, GetVal, PlainKey, PlainValue, PlainPairs, ChainValues, ChainOwned, SimContent;
    NamesDistinct(o);
    PlainConstants(o.chain);
    ChainValuesPlain(o.chain);
    ValuesOwned(o.chain);
    OwnedOrOther(key);
    var donor := if ".env" in files then files[".env"] else files[".env.example"];
    SetAllFrame(donor, ChainValues(o.chain), key);
    PutGet(SetAll(donor, ChainValues(o.chain)), SIMULATED_TEE, "false", key);
  }

  /** A created simulated file reads, for every setting but four, as the chain's live file does. */
  lemma CreatedSimCarriesOver(files: Files, o: Options, key: string)
    requires o.UsesSim() && o.SimFile() !in files && Scaffolded(files, o).Some?
    requires PlainKey(key) && key !in {"CHAIN", "CHAIN_ID", "SIMULATED_TEE", "EXT_PROXY_URL"}
    ensures o.SimFile() in Scaffolded(files, o).value && o.EnvFile() in Scaffolded(files, o).value
    ensures GetVal(Scaffolded(files, o).value[o.SimFile()], key) == GetVal(Scaffolded(files, o).value[o.EnvFile()], key)
  {
    hide SetKv, SetAll, GetVal, PlainKey, PlainValue, EnvContent;
    NamesDistinct(o);
    PlainConstants(o.chain);
    PlainNames();
    var env := EnvContent(files, o).value;
    var first := [(SIMULATED_TEE, "true"), ("EXT_PROXY_URL", "")];
    var second := [(SIMULATED_TEE, "true"), (CHAIN, o.chain.Name()), (CHAIN_ID, o.chain.Id())];
    SetAllFrame(env, first, key);
    SetAllFrame(SetAll(env, first), second, key);
  }

  /** And it reads true for the mode and nothing for the tunnel. */
  lemma CreatedSimValues(files: Files, o: Options)
    requires o.UsesSim() && o.SimFile() !in files && Scaffolded(files, o).Some?
    ensures o.SimFile() in Scaffolded(files, o).value
    ensures GetVal(Scaffolded(files, o).value[o.SimFile()], "SIMULATED_TEE") == "true"
    ensures GetVal(Scaffolded(files, o).value[o.SimFile()], "EXT_PROXY_URL") == ""
  {
    hide SetKv, SetAll, GetVal, PlainKey, PlainValue, EnvContent, Bound;
    NamesDistinct(o);
    PlainConstants(o.chain);
    PlainNames();
    var env := EnvContent(files, o).value;
    var first := [(SIMULATED_TEE, "true"), ("EXT_PROXY_URL", "")];
    var second := [(SIMULATED_TEE, "true"), (CHAIN, o.chain.Name()), (CHAIN_ID, o.chain.Id())];
    assert SimContent(files, o, env) == SetAll(SetAll(env, first), second);
    LeavesAt(first, 1);
    SetAllLeaves(env, first, "EXT_PROXY_URL", "");
    assert |SIMULATED_TEE| == 13 && SIMULATED_TEE[0] == 'S' && |CHAIN| == 5 && |CHAIN_ID| == 8;
    SetAllFrame(SetAll(env, first), second, "EXT_PROXY_URL");
    LeavesAt(second, 0);
    SetAllLeaves(SetAll(env, first), second, SIMULATED_TEE, "true");
  }

  lemma LeavesAt(kvs: seq<(string, string)>, i: nat)
    requires i < |kvs| && forall j :: i < j < |kvs| ==> kvs[j].0 != kvs[i].0
    ensures Leaves(kvs, kvs[i].0, kvs[i].1)
  {}

  // --- the values a created file holds ---------------------------------------------------------------

  /** A live chain by its name and id. */
  ghost predicate LiveFile(t: string, name: string, id: string) {
    && GetVal(t, "CHAIN") == name && GetVal(t, "CHAIN_ID") == id
    && GetVal(t, "LOCAL_MODE") == "false" && GetVal(t, "SIMULATED_TEE") == "false"
    && GetVal(t, "CHAIN_URL") == "https://" + name + "-api.flare.network/ext/C/rpc"
    && GetVal(t, "ADDRESSES_FILE") == "./config/" + name + "/deployed-addresses.json"
    && GetVal(t, "NORMAL_PROXY_URL") == "https://tee-proxy-" + name + "-1.flare.rocks"
    && GetVal(t, "EXT_PROXY_URL") == ""
  }

  ghost predicate LocalFile(t: string) {
    && GetVal(t, "CHAIN") == "local" && GetVal(t, "CHAIN_ID") == "31337"
    && GetVal(t, "LOCAL_MODE") == "true" && GetVal(t, "SIMULATED_TEE") == "true"
    && GetVal(t, "CHAIN_URL") == "http://127.0.0.1:8545" && GetVal(t, "NORMAL_PROXY_URL") == "http://localhost:6662"
    && GetVal(t, "ADDRESSES_FILE") == "" && GetVal(t, "EXT_PROXY_URL") == ""
  }

  lemma KeysDiffer(c: Chain, i: nat, j: nat)
    requires i < j < 8
    ensures |ChainValues(c)| == 8 && ChainValues(c)[i].0 != ChainValues(c)[j].0
  {
    var kvs := ChainValues(c);
    assert i == 0 || i == 1 || i == 2 || i == 3 || i == 4 || i == 5 || i == 6;
    assert j == 1 || j == 2 || j == 3 || j == 4 || j == 5 || j == 6 || j == 7;
    assert |"CHAIN"| == 5 && |"LOCAL_MODE"| == 10 && |"CHAIN_ID"| == 8 && |"CHAIN_URL"| == 9 && |"ADDRESSES_FILE"| == 14;
    assert |"NORMAL_PROXY_URL"| == 16 && "SIMULATED_TEE"[0] == 'S' && "EXT_PROXY_URL"[0] == 'E' && "CHAIN"[0] == 'C';
  }

  lemma ValueReads(donor: string, c: Chain, i: nat)
    requires i < 8
    ensures |ChainValues(c)| == 8
    ensures GetVal(SetAll(donor, ChainValues(c)), ChainValues(c)[i].0) == ChainValues(c)[i].1
  {
    hide SetAll, GetVal, ChainValues, PlainKey, PlainValue, Bound;
    ValuesOwned(c);
    ChainValuesPlain(c);
    var kvs := ChainValues(c);
    forall j | i < j < |kvs| ensures kvs[j].0 != kvs[i].0 { KeysDiffer(c, i, j); }
    LeavesAt(kvs, i);
    SetAllLeaves(donor, kvs, kvs[i].0, kvs[i].1);
  }

  /** The eight values that step 1 sets, read from the text it makes of the donor. */
  lemma SetValuesRead(donor: string, c: Chain)
    ensures var t := SetAll(donor, ChainValues(c));
            match c
            case Local => LocalFile(t)
            case Coston => LiveFile(t, "coston", "16")
            case Coston2 => LiveFile(t, "coston2", "114")
            case Songbird => LiveFile(t, "songbird", "19")
            case Flare => LiveFile(t, "flare", "14")
  {
    hide SetAll, GetVal;
    ValueReads(donor, c, 0);
    ValueReads(donor, c, 1);
    ValueReads(donor, c, 2);
    ValueReads(donor, c, 3);
    ValueReads(donor, c, 4);
    ValueReads(donor, c, 5);
    ValueReads(donor, c, 6);
    ValueReads(donor, c, 7);
  }

  lemma AgainFalse(t: string, name: string, id: string)
    requires LiveFile(t, name, id)
    ensures LiveFile(SetKv(t, SIMULATED_TEE, "false"), name, id)
  {
    PlainNames();
    PlainConstants(Local);
    hide SetKv, GetVal, PlainKey, PlainValue, Bound;
    PutGet(t, SIMULATED_TEE, "false", "CHAIN");
    PutGet(t, SIMULATED_TEE, "false", "CHAIN_ID");
    PutGet(t, SIMULATED_TEE, "false", "LOCAL_MODE");
    PutGet(t, SIMULATED_TEE, "false", "SIMULATED_TEE");
    PutGet(t, SIMULATED_TEE, "false", "CHAIN_URL");
    PutGet(t, SIMULATED_TEE, "false", "ADDRESSES_FILE");
    PutGet(t, SIMULATED_TEE, "false", "NORMAL_PROXY_URL");
    PutGet(t, SIMULATED_TEE, "false", "EXT_PROXY_URL");
    assert |"CHAIN"| == 5 && |"LOCAL_MODE"| == 10 && |"CHAIN_ID"| == 8 && |"CHAIN_URL"| == 9 && |"ADDRESSES_FILE"| == 14;
    assert |"NORMAL_PROXY_URL"| == 16 && SIMULATED_TEE[0] == 'S' && "EXT_PROXY_URL"[0] == 'E' && |SIMULATED_TEE| == 13;
  }

  /** Where each chain's settings are kept. */
  lemma FileNames(o: Options)
    ensures match o.chain
            case Local => o.EnvFile() == ".env.local"
            case Coston => o.EnvFile() == ".env.coston" && o.SimFile() == ".env.local.coston"
            case Coston2 => o.EnvFile() == ".env.coston2" && o.SimFile() == ".env.local.coston2"
            case Songbird => o.EnvFile() == ".env.songbird" && o.SimFile() == ".env.local.songbird"
            case Flare => o.EnvFile() == ".env.flare" && o.SimFile() == ".env.local.flare"
    ensures o.Source() == if o.simulated && !o.chain.Local? then o.SimFile() else o.EnvFile()
  {}

  /** A newly created file holds its chain's values, with or without --simulated. */
  lemma CreatedValues(files: Files, o: Options)
    requires o.EnvFile() !in files && (".env" in files || ".env.example" in files)
    ensures Scaffolded(files, o).Some? && o.EnvFile() in Scaffolded(files, o).value
    ensures var t := Scaffolded(files, o).value[o.EnvFile()];
            match o.chain
            case Local => LocalFile(t)
            case Coston => LiveFile(t, "coston", "16")
            case Coston2 => LiveFile(t, "coston2", "114")
            case Songbird => LiveFile(t, "songbird", "19")
            case Flare => LiveFile(t, "flare", "14")
  {
    hide SetKv, SetAll, GetVal, ChainValues, SimContent, LocalFile, LiveFile;
    NamesDistinct(o);
    var donor := if ".env" in files then files[".env"] else files[".env.example"];
    var t := SetAll(donor, ChainValues(o.chain));
    SetValuesRead(donor, o.chain);
    match o.chain
    case Local =>
    case Coston => AgainFalse(t, "coston", "16");
    case Coston2 => AgainFalse(t, "coston2", "114");
    case Songbird => AgainFalse(t, "songbird", "19");
    case Flare => AgainFalse(t, "flare", "14");
  }

  // --- what is then active ---------------------------------------------------------------------------

  /** After the first activation of a chain, .env reads as the .env before it did, or the example,
      for every setting that is neither the chain's nor the language. */
  lemma FirstActivationCarriesOver(files: Files, o: Options, out: Outside, key: string)
    requires Activated(files, o, out).ok && PlainValue(o.language)
    requires o.EnvFile() !in files && (o.UsesSim() ==> o.SimFile() !in files)
    requires PlainKey(key) && !ChainOwned(key) && key != "LANGUAGE"
    ensures ".env" in files || ".env.example" in files
    ensures ".env" in Activated(files, o, out).files
    ensures GetVal(Activated(files, o, out).files[".env"], key) ==
            GetVal(if ".env" in files then files[".env"] else files[".env.example"], key)
  {
    hide Activated, Scaffolded, SetKv, GetVal, Bound, PlainKey, PlainValue, Installed, NamesChain;
    ActivatedSource(files, o, out);
    ActiveNamesChain(files, o, out);
    RefusesWithoutDonor(files, o);
    CreatedCarriesOver(files, o, key);
    if o.UsesSim() { CreatedSimCarriesOver(files, o, key); }
    PlainKeys();
    PutGet(Scaffolded(files, o).value[o.Source()], LANGUAGE, o.language, key);
  }

  /** Exactly when a run succeeds. */
  lemma SucceedsExactlyWhen(files: Files, o: Options, out: Outside)
    ensures Activated(files, o, out).ok <==>
              && (o.language == "" || o.language in out.languages)
              && (o.chain == Local || (out.addressesOk && out.templatesOk))
              && (o.EnvFile() in files || ".env" in files || ".env.example" in files)
              && var s := Scaffolded(files, o).GetOr(files);
                 o.Source() in s
                 && var l := GetVal(if o.language == "" then s[o.Source()] else SetKv(s[o.Source()], "LANGUAGE", o.language), "LANGUAGE");
                    l == "" || l in out.languages
  {
    hide Scaffolded, SetKv, GetVal, Installed, BackedUp, IsCopy;
    RefusesWithoutDonor(files, o);
    NamesDistinct(o);
    if Scaffolded(files, o).Some? {
      ScaffoldedFiles(files, o);
      BackupElsewhere(Scaffolded(files, o).value, o.Source());
    }
  }

  /** A run that stops leaves .env as it was. */
  lemma RefusalLeavesActive(files: Files, o: Options, out: Outside)
    requires !Activated(files, o, out).ok
    ensures Lookup(Activated(files, o, out).files, ".env") == Lookup(files, ".env")
  {
    hide SetKv, GetVal, Installed, BackedUp, EnvContent, SimContent;
    NamesDistinct(o);
    BackupStandsApart(o);
    if Scaffolded(files, o).Some? {
      BackupElsewhere(Scaffolded(files, o).value, ACTIVE);
      BackupElsewhere(Scaffolded(files, o).value, o.Source());
    }
  }

  /** The backup check disregards every other *.backup: a text found only there is backed up again. */
  lemma BackupsAreNoCopies(files: Files)
    requires ".env" in files
    requires forall name :: name in files && ".env." <= name && files[name] == files[".env"] ==>
               |name| >= 7 && name[|name| - 7..] == ".backup"
    ensures BackedUp(files) == files[".env.backup" := files[".env"]]
  {}

  /** And a text found in any other .env.* file is not. */
  lemma SavedTextNeedsNoBackup(files: Files, name: string)
    requires ".env" in files && name in files && ".env." <= name && files[name] == files[".env"]
    requires |name| < 7 || name[|name| - 7..] != ".backup"
    ensures BackedUp(files) == files
  {}
}
