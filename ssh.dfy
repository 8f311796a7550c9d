/** The SSH host-entry generator: it makes sure the master SSH client config
    includes the directory of generated host files, has the external `skm`
    tool create an Ed25519 key pair for the host, checks that both key files
    exist, and writes the host's config block, replacing what was there. */
module Ssh {
  import opened Text
  import opened Fs

  datatype Option<T> = None | Some(value: T)

  /** Why a run stops: the program panics at each of these points. */
  datatype Failure =
    | KeyGenFailed                  // `skm` exited with a non-zero status
    | MissingPublicKey(path: Path)  // no public key after generation
    | MissingPrivateKey(path: Path) // no private key after generation

  datatype Result<T> = Ok(value: T) | Err(failure: Failure)

  /** The directory layout the generator works in. The paths are given; the
      name of the generated-files directory is the one the include line
      refers to. */
  datatype Prefix = Prefix(ssh: Path, sshConfig: Path, skm: Path, bin: Path, sshConfigDirName: string)

  /** The arguments of the host-add command: additions in the order given,
      possibly naming an option twice. */
  datatype SshArgs = SshArgs(key: string, hostname: string, comment: Option<string>, addition: seq<(string, string)>)

  /** One host entry. `additions` maps an option name, in whatever casing it
      was given, to its value. */
  datatype SshConfig = SshConfig(key: string, hostname: string, comment: Option<string>, additions: map<string, string>)

  // ---------------------------------------------------------------------
  // Building an entry from the command line

  /** No later pair names the same option as pair `i`. */
  predicate LastFor(pairs: seq<(string, string)>, i: int)
    requires 0 <= i < |pairs|
  {
    forall j :: i < j < |pairs| ==> pairs[j].0 != pairs[i].0
  }

  /** The option names of the pairs. */
  function Names(pairs: seq<(string, string)>): set<string> {
    set i | 0 <= i < |pairs| :: pairs[i].0
  }

  lemma NamesSnoc(pairs: seq<(string, string)>)
    requires pairs != []
    ensures Names(pairs) == Names(pairs[..|pairs| - 1]) + {pairs[|pairs| - 1].0}
  {
    var init := pairs[..|pairs| - 1];
    forall x | x in Names(pairs) ensures x in Names(init) + {pairs[|pairs| - 1].0} {
      var i :| 0 <= i < |pairs| && pairs[i].0 == x;
      if i < |init| { assert init[i] == pairs[i]; }
    }
    forall x | x in Names(init) ensures x in Names(pairs) {
      var i :| 0 <= i < |init| && init[i].0 == x;
      assert pairs[i] == init[i];
    }
  }

  /** Collecting the pairs into a hash map, each pair inserted in turn. */
  function CollectAdditions(pairs: seq<(string, string)>): (m: map<string, string>)
    ensures |m| <= |pairs|
    decreases |pairs|
  {
    if pairs == [] then map[]
    else
      var last := pairs[|pairs| - 1];
      CollectAdditions(pairs[..|pairs| - 1])[last.0 := last.1]
  }

  /** Every option named is a key of the collected map, and nothing else is. */
  lemma {:induction false} CollectAdditionsKeys(pairs: seq<(string, string)>)
    ensures CollectAdditions(pairs).Keys == Names(pairs)
    decreases |pairs|
  {
    if pairs != [] {
      CollectAdditionsKeys(pairs[..|pairs| - 1]);
      NamesSnoc(pairs);
    }
  }

  /** When an option is named more than once the last value wins. */
  lemma {:induction false} CollectAdditionsLastWins(pairs: seq<(string, string)>)
    ensures forall i :: 0 <= i < |pairs| && LastFor(pairs, i) ==>
      pairs[i].0 in CollectAdditions(pairs) && CollectAdditions(pairs)[pairs[i].0] == pairs[i].1
    decreases |pairs|
  {
    if pairs != [] {
      var init := pairs[..|pairs| - 1];
      CollectAdditionsLastWins(init);
      forall i | 0 <= i < |init| && LastFor(pairs, i)
        ensures pairs[i].0 in CollectAdditions(pairs) && CollectAdditions(pairs)[pairs[i].0] == pairs[i].1
      {
        assert init[i] == pairs[i];
        assert LastFor(init, i);
        assert pairs[|pairs| - 1].0 != pairs[i].0;
      }
    }
  }

  /** `From<SshArgs> for SshConfig`. */
  function FromArgs(args: SshArgs): (cfg: SshConfig)
    ensures cfg.key == args.key && cfg.hostname == args.hostname && cfg.comment == args.comment
    ensures cfg.additions.Keys == Names(args.addition)
    ensures forall i :: 0 <= i < |args.addition| && LastFor(args.addition, i) ==>
      cfg.additions[args.addition[i].0] == args.addition[i].1
  {
    CollectAdditionsKeys(args.addition);
    CollectAdditionsLastWins(args.addition);
    SshConfig(args.key, args.hostname, args.comment, CollectAdditions(args.addition))
  }

  // ---------------------------------------------------------------------
  // Step 1: the include line in the master config

  /** `SSH_INCLUDE_CONDIG_DIR_LINE`: a single line when the directory name
      holds no newline. */
  function IncludeLine(dirName: string): (line: string)
    ensures '\n' !in dirName ==> SingleLine(line)
  {
    var line := "Include " + dirName + "/*";
    assert '\n' !in dirName ==> '\n' !in line by {
      assert forall c :: c in line ==> c in "Include " || c in dirName || c in "/*";
    }
    line
  }

  /** Trimming leaves the include line as it is: it starts with 'I' and ends
      with '*'. */
  lemma IncludeLineTrimmed(dirName: string)
    ensures Trim(IncludeLine(dirName)) == IncludeLine(dirName)
  {
    var line := IncludeLine(dirName);
    assert line[0] == 'I' && line[|line| - 1] == '*';
  }

  /** The master config: the file `config` in the SSH directory. */
  function MasterPath(prefix: Prefix): (p: Path)
    ensures p == prefix.ssh + "config" || p == prefix.ssh + "/config"
  {
    Join(prefix.ssh, "config")
  }

  /** Some line, once trimmed, is `line`. */
  predicate HasLine(lines: seq<string>, line: string) {
    exists j :: 0 <= j < |lines| && Trim(lines[j]) == line
  }

  /** The master config already includes the generated-files directory. */
  predicate HasInclude(content: string, dirName: string) {
    HasLine(Lines(content), IncludeLine(dirName))
  }

  /** The master config's text after one include step: its text is kept, and
      the include line is appended exactly when no line trims to it. */
  function IncludeStep(content: string, dirName: string): (r: string)
    ensures content <= r
    ensures r == content <==> HasInclude(content, dirName)
    ensures r != content ==> r[|content|..] == IncludeLine(dirName) + "\n"
  {
    if HasInclude(content, dirName) then content else content + IncludeLine(dirName) + "\n"
  }

  /** The scan of the master config's lines: it stops at the first line that
      trims to `wanted`, and reports the line missing when it runs out. */
  method MissingInclude(lines: seq<string>, wanted: string) returns (missing: bool)
    ensures missing <==> !HasLine(lines, wanted)
  {
    var i := 0;
    while true
      invariant 0 <= i <= |lines|
      invariant forall j :: 0 <= j < i ==> Trim(lines[j]) != wanted
      decreases |lines| - i
    {
      if i == |lines| {
        missing := true;
        break;
      }
      if Trim(lines[i]) == wanted {
        missing := false;
        break;
      }
      i := i + 1;
    }
  }

  /** `include_ssh_config_dir`: the master config is created if missing and
      gets the include line appended unless a line already trims to it; then
      the generated-files directory is created. */
  method IncludeSshConfigDir(fs: FileSystem, prefix: Prefix)
    modifies fs
    ensures fs.files == old(fs.files)[MasterPath(prefix) :=
      IncludeStep(old(fs.Snapshot().Content(MasterPath(prefix))), prefix.sshConfigDirName)]
    ensures fs.dirs == old(fs.dirs) + {prefix.sshConfig}
  {
    var path := MasterPath(prefix);
    var text := fs.OpenCreate(path);
    var missing := MissingInclude(Lines(text), IncludeLine(prefix.sshConfigDirName));
    if missing {
      fs.Append(path, IncludeLine(prefix.sshConfigDirName) + "\n");
      assert text + (IncludeLine(prefix.sshConfigDirName) + "\n") == IncludeStep(text, prefix.sshConfigDirName);
    } else {
      assert text == IncludeStep(text, prefix.sshConfigDirName);
    }
    fs.CreateDirAll(prefix.sshConfig);
  }

  // ---------------------------------------------------------------------
  // Step 2: key generation by the external tool

  /** The external key tool: given its program path, its arguments and the
      filesystem, what it leaves on disk and whether it exited successfully. */
  datatype Exit = Exit(disk: Disk, success: bool)
  type KeyTool = (Path, seq<string>, Disk) -> Exit

  /** The key tool: the program `skm` in the binary directory. */
  function SkmProgram(prefix: Prefix): (p: Path)
    ensures p == prefix.bin + "skm" || p == prefix.bin + "/skm"
  {
    Join(prefix.bin, "skm")
  }

  /** The comment given to the key: the entry's comment, or its hostname when
      it has none. */
  function KeyComment(cfg: SshConfig): (c: string)
    ensures cfg.comment.Some? ==> c == cfg.comment.value
    ensures cfg.comment.None? ==> c == cfg.hostname
  {
    match cfg.comment
    case Some(c) => c
    case None => cfg.hostname
  }

  /** The arguments `generate_key` passes to `skm`: the store path, the
      `create` subcommand for the host's key, its comment, and the Ed25519
      key type. */
  function SkmArgs(prefix: Prefix, cfg: SshConfig): (args: seq<string>)
    ensures |args| == 8
    ensures args[0] == "--store-path" && args[1] == prefix.skm
    ensures args[2] == "create" && args[3] == cfg.key
    ensures args[4] == "-C" && args[5] == KeyComment(cfg)
    ensures args[6] == "-t" && args[7] == "ed25519"
  {
    ["--store-path", prefix.skm, "create", cfg.key, "-C", KeyComment(cfg), "-t", "ed25519"]
  }

  /** `generate_key`: run the tool and wait for it. */
  method GenerateKey(fs: FileSystem, prefix: Prefix, cfg: SshConfig, skm: KeyTool) returns (ok: bool)
    modifies fs
    ensures ok == skm(SkmProgram(prefix), SkmArgs(prefix, cfg), old(fs.Snapshot())).success
    ensures fs.Snapshot() == skm(SkmProgram(prefix), SkmArgs(prefix, cfg), old(fs.Snapshot())).disk
  {
    var run := skm(SkmProgram(prefix), SkmArgs(prefix, cfg), fs.Snapshot());
    fs.Replace(run.disk);
    ok := run.success;
  }

  // ---------------------------------------------------------------------
  // Step 3: the key check

  /** The public key: the private key's path with `.pub` added. */
  function PublicKeyPath(prefix: Prefix, key: string): (p: Path)
    ensures p == PrivateKeyPath(prefix, key) + ".pub"
  {
    var dir := Join(prefix.skm, key);
    assert dir + ("id_ed25519" + ".pub") == dir + "id_ed25519" + ".pub";
    assert dir + "/" + ("id_ed25519" + ".pub") == dir + "/" + "id_ed25519" + ".pub";
    Join(dir, "id_ed25519.pub")
  }

  /** The private key: the file `id_ed25519` in the key's directory of the key
      store, whose path starts with the store's unless the key is an absolute
      path. */
  function PrivateKeyPath(prefix: Prefix, key: string): (p: Path)
    ensures (key == [] || key[0] != '/') ==> prefix.skm <= p
  {
    Join(Join(prefix.skm, key), "id_ed25519")
  }

  /** `check_key`: the public key is looked for first, then the private key;
      when both are there the private key's path is the result. */
  method CheckKey(fs: FileSystem, prefix: Prefix, key: string) returns (r: Result<Path>)
    ensures !fs.Exists(PublicKeyPath(prefix, key)) ==> r == Err(MissingPublicKey(PublicKeyPath(prefix, key)))
    ensures fs.Exists(PublicKeyPath(prefix, key)) && !fs.Exists(PrivateKeyPath(prefix, key)) ==>
      r == Err(MissingPrivateKey(PrivateKeyPath(prefix, key)))
    ensures fs.Exists(PublicKeyPath(prefix, key)) && fs.Exists(PrivateKeyPath(prefix, key)) ==>
      r == Ok(PrivateKeyPath(prefix, key))
  {
    var publicPath := PublicKeyPath(prefix, key);
    var privatePath := PrivateKeyPath(prefix, key);
    if !fs.Exists(publicPath) {
      return Err(MissingPublicKey(publicPath));
    }
    if !fs.Exists(privatePath) {
      return Err(MissingPrivateKey(privatePath));
    }
    return Ok(privatePath);
  }

  // ---------------------------------------------------------------------
  // Step 4: the host's config block

  const Banner := "# AUTO GENERATED FILE. DO NOT EDIT"

  /** `order` lists every key of `m` exactly once: the order a hash map's
      iteration happens to take. */
  predicate IsEnumeration(order: seq<string>, m: map<string, string>) {
    && (forall j :: 0 <= j < |order| ==> order[j] in m)
    && (forall k :: k in m ==> k in order)
    && (forall i, j :: 0 <= i < j < |order| ==> order[i] != order[j])
  }

  /** The directive line of one addition: its name converted by `pascal`,
      then its value. */
  function AdditionLine(name: string, value: string, pascal: string -> string): string {
    "\t" + pascal(name) + " " + value
  }

  /** One directive line per addition, in the iteration order. */
  function AdditionLines(order: seq<string>, additions: map<string, string>, pascal: string -> string): (ls: seq<string>)
    requires forall j :: 0 <= j < |order| ==> order[j] in additions
    ensures |ls| == |order|
    ensures forall j :: 0 <= j < |order| ==> ls[j] == AdditionLine(order[j], additions[order[j]], pascal)
    decreases |order|
  {
    if order == [] then []
    else
      var last := order[|order| - 1];
      AdditionLines(order[..|order| - 1], additions, pascal) + [AdditionLine(last, additions[last], pascal)]
  }

  /** The lines before the additions. */
  function FixedLines(cfg: SshConfig, keyPath: Path): seq<string> {
    [ Banner, "", "Host " + cfg.key, "\tHostname " + cfg.hostname,
      "\tAddKeysToAgent yes", "\tIdentitiesOnly yes", "\tIdentityFile " + keyPath ]
  }

  /** The keychain directive added on macOS. */
  function KeychainLines(macos: bool): seq<string> {
    if macos then ["\tUseKeychain yes"] else []
  }

  /** The lines of the config block for `cfg`, with `keyPath` as its identity
      file, the additions in `order`, and the keychain line when `macos`. */
  function HostLines(cfg: SshConfig, keyPath: Path, order: seq<string>, macos: bool, pascal: string -> string): (ls: seq<string>)
    requires forall j :: 0 <= j < |order| ==> order[j] in cfg.additions
    ensures |ls| == 7 + |order| + (if macos then 1 else 0)
  {
    FixedLines(cfg, keyPath) + AdditionLines(order, cfg.additions, pascal) + KeychainLines(macos)
  }

  /** The text of the lines before the additions, as the block's first
      statements build it. */
  lemma FixedText(cfg: SshConfig, keyPath: Path)
    ensures Unlines(FixedLines(cfg, keyPath)) ==
      Banner + "\n\n" + ("Host " + cfg.key + "\n") + ("\tHostname " + cfg.hostname + "\n")
      + "\tAddKeysToAgent yes\n" + "\tIdentitiesOnly yes\n" + ("\tIdentityFile " + keyPath + "\n")
  {
    var l2, l3, l6 := "Host " + cfg.key, "\tHostname " + cfg.hostname, "\tIdentityFile " + keyPath;
    assert Unlines([Banner, ""]) == Banner + "\n\n" by {
      assert [Banner][1..] == [];
      UnlinesSnoc([Banner], "");
      assert [Banner] + [""] == [Banner, ""];
      assert Banner + "\n" + ("" + "\n") == Banner + "\n\n";
    }
    UnlinesSnoc([Banner, ""], l2);
    assert [Banner, ""] + [l2] == [Banner, "", l2];
    UnlinesSnoc([Banner, "", l2], l3);
    assert [Banner, "", l2] + [l3] == [Banner, "", l2, l3];
    UnlinesSnoc([Banner, "", l2, l3], "\tAddKeysToAgent yes");
    assert "\tAddKeysToAgent yes" + "\n" == "\tAddKeysToAgent yes\n";
    assert [Banner, "", l2, l3] + ["\tAddKeysToAgent yes"] == [Banner, "", l2, l3, "\tAddKeysToAgent yes"];
    UnlinesSnoc([Banner, "", l2, l3, "\tAddKeysToAgent yes"], "\tIdentitiesOnly yes");
    assert "\tIdentitiesOnly yes" + "\n" == "\tIdentitiesOnly yes\n";
    assert [Banner, "", l2, l3, "\tAddKeysToAgent yes"] + ["\tIdentitiesOnly yes"]
        == [Banner, "", l2, l3, "\tAddKeysToAgent yes", "\tIdentitiesOnly yes"];
    UnlinesSnoc([Banner, "", l2, l3, "\tAddKeysToAgent yes", "\tIdentitiesOnly yes"], l6);
    assert [Banner, "", l2, l3, "\tAddKeysToAgent yes", "\tIdentitiesOnly yes"] + [l6] == FixedLines(cfg, keyPath);
  }

  /** One more addition adds its directive line to the text. */
  lemma AdditionStep(fixed: seq<string>, order: seq<string>, i: nat, additions: map<string, string>,
                     pascal: string -> string)
    requires i < |order| && forall j :: 0 <= j < |order| ==> order[j] in additions
    ensures Unlines(fixed + AdditionLines(order[..i + 1], additions, pascal))
      == Unlines(fixed + AdditionLines(order[..i], additions, pascal)) + (AdditionLine(order[i], additions[order[i]], pascal) + "\n")
  {
    var before := fixed + AdditionLines(order[..i], additions, pascal);
    var line := AdditionLine(order[i], additions[order[i]], pascal);
    assert order[..i + 1][..i] == order[..i];
    assert before + [line] == fixed + AdditionLines(order[..i + 1], additions, pascal);
    UnlinesSnoc(before, line);
  }

  /** The keychain line, when there is one, ends the text. */
  lemma KeychainText(body: seq<string>, macos: bool)
    ensures Unlines(body + KeychainLines(macos)) == if macos then Unlines(body) + "\tUseKeychain yes\n" else Unlines(body)
  {
    if macos {
      UnlinesSnoc(body, "\tUseKeychain yes");
      assert "\tUseKeychain yes" + "\n" == "\tUseKeychain yes\n";
    } else {
      assert body + [] == body;
    }
  }

  /** The text building of `generate_ssh_config`: the block is grown line by
      line, the additions in the map's iteration order. */
  method RenderHostBlock(cfg: SshConfig, keyPath: Path, order: seq<string>, macos: bool, pascal: string -> string)
    returns (content: string)
    requires IsEnumeration(order, cfg.additions)
    ensures content == Unlines(HostLines(cfg, keyPath, order, macos, pascal))
  {
    content := Banner + "\n\n";
    content := content + ("Host " + cfg.key + "\n");
    content := content + ("\tHostname " + cfg.hostname + "\n");
    content := content + "\tAddKeysToAgent yes\n";
    content := content + "\tIdentitiesOnly yes\n";
    content := content + ("\tIdentityFile " + keyPath + "\n");
    FixedText(cfg, keyPath);
    ghost var fixed := FixedLines(cfg, keyPath);
    assert order[..0] == [] && fixed + [] == fixed;
    for i := 0 to |order|
      invariant content == Unlines(fixed + AdditionLines(order[..i], cfg.additions, pascal))
    {
      var name := order[i];
      content := content + ("\t" + pascal(name) + " " + cfg.additions[name] + "\n");
      AdditionStep(fixed, order, i, cfg.additions, pascal);
    }
    assert order[..|order|] == order;
    if macos {
      content := content + "\tUseKeychain yes\n";
    }
    KeychainText(fixed + AdditionLines(order, cfg.additions, pascal), macos);
  }

  /** The host's generated file: the key joined to the generated-files
      directory, whose path it then starts with; an absolute key replaces the
      directory altogether. */
  function HostConfigPath(prefix: Prefix, key: string): (p: Path)
    ensures |key| <= |p| && p[|p| - |key|..] == key
    ensures (key == [] || key[0] != '/') ==> prefix.sshConfig <= p
    ensures key != [] && key[0] == '/' ==> p == key
  {
    Join(prefix.sshConfig, key)
  }

  /** `generate_ssh_config`: the key check runs first and a failure leaves the
      filesystem as it was; otherwise the host's file holds exactly the
      rendered block, whatever it held before. */
  method GenerateSshConfig(fs: FileSystem, cfg: SshConfig, prefix: Prefix, order: seq<string>, macos: bool,
                           pascal: string -> string) returns (r: Result<()>)
    requires IsEnumeration(order, cfg.additions)
    modifies fs
    ensures !old(fs.Exists(PublicKeyPath(prefix, cfg.key))) ==>
      r == Err(MissingPublicKey(PublicKeyPath(prefix, cfg.key)))
    ensures old(fs.Exists(PublicKeyPath(prefix, cfg.key))) && !old(fs.Exists(PrivateKeyPath(prefix, cfg.key))) ==>
      r == Err(MissingPrivateKey(PrivateKeyPath(prefix, cfg.key)))
    ensures r.Err? ==> fs.Snapshot() == old(fs.Snapshot())
    ensures old(fs.Exists(PublicKeyPath(prefix, cfg.key))) && old(fs.Exists(PrivateKeyPath(prefix, cfg.key))) ==>
      && r == Ok(())
      && fs.files == old(fs.files)[HostConfigPath(prefix, cfg.key) :=
           Unlines(HostLines(cfg, PrivateKeyPath(prefix, cfg.key), order, macos, pascal))]
      && fs.dirs == old(fs.dirs)
  {
    var path := HostConfigPath(prefix, cfg.key);
    var key := CheckKey(fs, prefix, cfg.key);
    if key.Err? {
      return Err(key.failure);
    }
    var content := RenderHostBlock(cfg, key.value, order, macos, pascal);
    fs.WriteTruncate(path, content);
    r := Ok(());
  }

  // ---------------------------------------------------------------------
  // The whole run

  /** `generate`: the include step, then key generation, then the config
      write, each on the filesystem the previous step left. `afterInclude`
      and `afterKeyGen` are the filesystem between the steps. */
  method Generate(fs: FileSystem, cfg: SshConfig, prefix: Prefix, order: seq<string>, macos: bool,
                  pascal: string -> string, skm: KeyTool)
    returns (r: Result<()>, ghost afterInclude: Disk, ghost afterKeyGen: Disk)
    requires IsEnumeration(order, cfg.additions)
    modifies fs
    ensures afterInclude == Disk(
      old(fs.files)[MasterPath(prefix) := IncludeStep(old(fs.Snapshot().Content(MasterPath(prefix))), prefix.sshConfigDirName)],
      old(fs.dirs) + {prefix.sshConfig})
    ensures afterKeyGen == skm(SkmProgram(prefix), SkmArgs(prefix, cfg), afterInclude).disk
    ensures !skm(SkmProgram(prefix), SkmArgs(prefix, cfg), afterInclude).success ==>
      r == Err(KeyGenFailed) && fs.Snapshot() == afterKeyGen
    ensures skm(SkmProgram(prefix), SkmArgs(prefix, cfg), afterInclude).success ==>
      if !afterKeyGen.Exists(PublicKeyPath(prefix, cfg.key)) then
        r == Err(MissingPublicKey(PublicKeyPath(prefix, cfg.key))) && fs.Snapshot() == afterKeyGen
      else if !afterKeyGen.Exists(PrivateKeyPath(prefix, cfg.key)) then
        r == Err(MissingPrivateKey(PrivateKeyPath(prefix, cfg.key))) && fs.Snapshot() == afterKeyGen
      else
        && r == Ok(())
        && fs.files == afterKeyGen.files[HostConfigPath(prefix, cfg.key) :=
             Unlines(HostLines(cfg, PrivateKeyPath(prefix, cfg.key), order, macos, pascal))]
        && fs.dirs == afterKeyGen.dirs
  {
    IncludeSshConfigDir(fs, prefix);
    afterInclude := fs.Snapshot();
    var ok := GenerateKey(fs, prefix, cfg, skm);
    afterKeyGen := fs.Snapshot();
    if !ok {
      return Err(KeyGenFailed), afterInclude, afterKeyGen;
    }
    r := GenerateSshConfig(fs, cfg, prefix, order, macos, pascal);
  }
}
