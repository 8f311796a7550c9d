/** What the generator's steps promise, stated on the functions that specify
    them: the include step appends one line at most and only when needed, and
    the host block has the lines the generator writes and reads back as them. */
module SshProperties {
  import opened Text
  import opened Fs
  import opened Ssh

  /** Text is terminated when it is empty or ends in a newline: appending to
      it starts a new line. */
  predicate Terminated(s: string) {
    s == [] || s[|s| - 1] == '\n'
  }

  // ---------------------------------------------------------------------
  // The include step

  /** A line whose ends are not whitespace and that differs from the include
      line does not match it. */
  lemma NotIncludeLine(line: string, dirName: string)
    requires line != [] && !IsWhitespace(line[0]) && !IsWhitespace(line[|line| - 1])
    requires line != IncludeLine(dirName)
    ensures Trim(line) != IncludeLine(dirName)
  {
  }

  /** Appending the include line to terminated text makes it present. */
  lemma IncludeLineAppended(content: string, dirName: string)
    requires '\n' !in dirName && Terminated(content)
    ensures Lines(content + IncludeLine(dirName) + "\n") == Lines(content) + [IncludeLine(dirName)]
    ensures HasInclude(content + IncludeLine(dirName) + "\n", dirName)
  {
    var line := IncludeLine(dirName);
    LinesSnocLine(content, line);
    IncludeLineTrimmed(dirName);
    var ls := Lines(content + line + "\n");
    assert Trim(ls[|ls| - 1]) == line;
  }

  /** Terminated text holding no include line gets exactly one more line, the
      include line, which is then present. */
  lemma IncludeStepAppends(content: string, dirName: string)
    requires '\n' !in dirName && Terminated(content) && !HasInclude(content, dirName)
    ensures IncludeStep(content, dirName) == content + IncludeLine(dirName) + "\n"
    ensures Lines(IncludeStep(content, dirName)) == Lines(content) + [IncludeLine(dirName)]
    ensures HasInclude(IncludeStep(content, dirName), dirName)
  {
    IncludeLineAppended(content, dirName);
  }

  /** On terminated text a second include step changes nothing. */
  lemma IncludeStepIdempotent(content: string, dirName: string)
    requires '\n' !in dirName && Terminated(content)
    ensures IncludeStep(IncludeStep(content, dirName), dirName) == IncludeStep(content, dirName)
  {
    if !HasInclude(content, dirName) {
      IncludeStepAppends(content, dirName);
    }
  }

  /** Whatever the text, the step only appends, and adds at most one line: on
      unterminated text the include text is glued onto the last line. */
  lemma IncludeStepAppendOnly(content: string, dirName: string)
    requires '\n' !in dirName
    ensures content <= IncludeStep(content, dirName)
    ensures |Lines(IncludeStep(content, dirName))| <= |Lines(content)| + 1
  {
    var line := IncludeLine(dirName);
    if !HasInclude(content, dirName) {
      if Terminated(content) {
        IncludeStepAppends(content, dirName);
      } else {
        LinesGlue(content, line);
      }
    }
  }

  /** Text of one line that starts with a non-whitespace character and does
      not trim to the include line gets the include text glued onto that line,
      which then does not trim to it either, so a second run appends it again.
      (A line of whitespace only would trim to the include line once glued.) */
  lemma IncludeStepNotIdempotentUnterminated(content: string, dirName: string)
    requires '\n' !in dirName && '\n' !in content && content != [] && !IsWhitespace(content[0])
    requires !HasInclude(content, dirName)
    ensures IncludeStep(IncludeStep(content, dirName), dirName) != IncludeStep(content, dirName)
  {
    var line := IncludeLine(dirName);
    var once := content + line + "\n";
    OneLineGlued(content, line);
    var glued := content + line;
    assert glued[0] == content[0] && glued[|glued| - 1] == line[|line| - 1] == '*';
    assert Lines(once) == [glued];
    NotIncludeLine(glued, dirName);
    assert !HasInclude(once, dirName);
    assert |IncludeStep(once, dirName)| > |once|;
  }

  /** The smallest such text: "x". */
  lemma IncludeStepNotIdempotentOnX(dirName: string)
    requires '\n' !in dirName
    ensures IncludeStep(IncludeStep("x", dirName), dirName) != IncludeStep("x", dirName)
  {
    assert Lines("x") == ["x"];
    NotIncludeLine("x", dirName);
    IncludeStepNotIdempotentUnterminated("x", dirName);
  }

  /** Whatever the text, the step settles after two runs: the first run
      leaves terminated text or text that already includes. */
  lemma IncludeStepSettles(content: string, dirName: string)
    requires '\n' !in dirName
    ensures var twice := IncludeStep(IncludeStep(content, dirName), dirName);
      IncludeStep(twice, dirName) == twice
  {
    if !HasInclude(content, dirName) {
      IncludeStepIdempotent(IncludeStep(content, dirName), dirName);
    }
  }

  /** A master config that did not exist, or was empty, becomes the include
      line and a newline. */
  lemma IncludeStepEmpty(dirName: string)
    ensures IncludeStep("", dirName) == IncludeLine(dirName) + "\n"
  {
    assert "" + IncludeLine(dirName) + "\n" == IncludeLine(dirName) + "\n";
  }

  /** Two terminated lines, neither of which trims to the include line, get
      the include line appended, and a second run leaves the text so. */
  lemma IncludeStepTwoLines(first: string, second: string, dirName: string)
    requires '\n' !in dirName && SingleLine(first) && SingleLine(second)
    requires first != [] && !IsWhitespace(first[0]) && !IsWhitespace(first[|first| - 1])
    requires second != [] && !IsWhitespace(second[0]) && !IsWhitespace(second[|second| - 1])
    requires first != IncludeLine(dirName) && second != IncludeLine(dirName)
    ensures var content := first + "\n" + second + "\n";
      IncludeStep(content, dirName) == content + IncludeLine(dirName) + "\n"
      && IncludeStep(IncludeStep(content, dirName), dirName) == IncludeStep(content, dirName)
  {
    var content := first + "\n" + second + "\n";
    LinesSnocLine(first + "\n", second);
    assert Lines(first + "\n") == [first] by {
      LinesSnocLine([], first);
      assert [] + first + "\n" == first + "\n";
    }
    NotIncludeLine(first, dirName);
    NotIncludeLine(second, dirName);
    assert Lines(content) == [first, second];
    assert !HasInclude(content, dirName);
    IncludeStepIdempotent(content, dirName);
  }

  /** Solver aid: the two-line text written as one literal. It states
      nothing about the generator. */
  lemma TwoLinesText()
    ensures "test content" + "\n" + "test config" + "\n" == "test content\ntest config\n"
  {
  }

  /** The master config of two other lines, "test content" and "test config",
      gets the include line appended, and a second run leaves it so. */
  lemma IncludeStepOtherLines(dirName: string)
    requires '\n' !in dirName
    ensures IncludeStep("test content\ntest config\n", dirName)
      == "test content\ntest config\n" + IncludeLine(dirName) + "\n"
    ensures var after := IncludeStep("test content\ntest config\n", dirName);
      IncludeStep(after, dirName) == after
  {
    IncludeStepTwoLines("test content", "test config", dirName);
    TwoLinesText();
  }

  // ---------------------------------------------------------------------
  // The host block

  /** An enumeration of a map's keys has one entry per key. */
  lemma {:induction false} EnumerationLength(order: seq<string>, m: map<string, string>)
    requires IsEnumeration(order, m)
    ensures |order| == |m|
    decreases |order|
  {
    if order != [] {
      var init := order[..|order| - 1];
      var last := order[|order| - 1];
      var rest := m - {last};
      forall k | k in rest ensures k in init {
        var j :| 0 <= j < |order| && order[j] == k;
        assert j != |order| - 1;
        assert init[j] == k;
      }
      forall j | 0 <= j < |init| ensures init[j] in rest {
        assert init[j] == order[j] && order[j] != last;
      }
      forall i, j | 0 <= i < j < |init| ensures init[i] != init[j] {
        assert init[i] == order[i] && init[j] == order[j];
      }
      EnumerationLength(init, rest);
      assert m.Keys == rest.Keys + {last};
    }
  }

  /** The lines of the block, for an entry whose key, hostname, key path,
      converted option names and values are single lines. */
  predicate SingleLineEntry(cfg: SshConfig, keyPath: Path, pascal: string -> string) {
    && SingleLine(cfg.key) && SingleLine(cfg.hostname) && SingleLine(keyPath)
    && forall name :: name in cfg.additions ==> '\n' !in pascal(name) && SingleLine(cfg.additions[name])
  }

  lemma NoNewlineConcat(a: string, b: string)
    requires '\n' !in a && '\n' !in b
    ensures '\n' !in a + b
  {
    assert forall c :: c in a + b ==> c in a || c in b;
  }

  /** The fixed lines are single lines. */
  lemma FixedLinesSingle(cfg: SshConfig, keyPath: Path)
    requires SingleLine(cfg.key) && SingleLine(cfg.hostname) && SingleLine(keyPath)
    ensures forall k :: 0 <= k < 7 ==> SingleLine(FixedLines(cfg, keyPath)[k])
  {
    FixedLiteralsSingle();
    FixedFieldsSingle(cfg, keyPath);
  }

  lemma FixedLiteralsSingle()
    ensures SingleLine(Banner) && SingleLine("") && SingleLine("\tAddKeysToAgent yes") && SingleLine("\tIdentitiesOnly yes")
  {
  }

  lemma FixedFieldsSingle(cfg: SshConfig, keyPath: Path)
    requires SingleLine(cfg.key) && SingleLine(cfg.hostname) && SingleLine(keyPath)
    ensures SingleLine("Host " + cfg.key) && SingleLine("\tHostname " + cfg.hostname)
    ensures SingleLine("\tIdentityFile " + keyPath)
  {
    SingleLinePrefixed("Host ", cfg.key);
    SingleLinePrefixed("\tHostname ", cfg.hostname);
    SingleLinePrefixed("\tIdentityFile ", keyPath);
  }

  /** A directive line is a single line when its converted name holds no
      newline and its value is a single line. */
  lemma AdditionLineSingle(name: string, value: string, pascal: string -> string)
    requires '\n' !in pascal(name) && SingleLine(value)
    ensures SingleLine(AdditionLine(name, value, pascal))
  {
    NoNewlineConcat("\t", pascal(name));
    NoNewlineConcat("\t" + pascal(name), " ");
    SingleLinePrefixed("\t" + pascal(name) + " ", value);
  }

  /** Every line of the block is a single line. */
  lemma HostLinesSingle(cfg: SshConfig, keyPath: Path, order: seq<string>, macos: bool, pascal: string -> string)
    requires IsEnumeration(order, cfg.additions) && SingleLineEntry(cfg, keyPath, pascal)
    ensures forall k :: 0 <= k < |HostLines(cfg, keyPath, order, macos, pascal)| ==>
      SingleLine(HostLines(cfg, keyPath, order, macos, pascal)[k])
  {
    var ls := HostLines(cfg, keyPath, order, macos, pascal);
    var fixed := FixedLines(cfg, keyPath);
    var additions := AdditionLines(order, cfg.additions, pascal);
    FixedLinesSingle(cfg, keyPath);
    forall k | 0 <= k < |ls| ensures SingleLine(ls[k]) {
      if k < 7 {
        assert ls[k] == fixed[k];
      } else if k < 7 + |order| {
        var name := order[k - 7];
        assert ls[k] == additions[k - 7];
        AdditionLineSingle(name, cfg.additions[name], pascal);
      } else {
        assert ls[k] == "\tUseKeychain yes";
      }
    }
  }

  /** The block's lines: the seven fixed ones, one per addition in the map's
      order, and the keychain line last on macOS. */
  lemma HostLinesShape(cfg: SshConfig, keyPath: Path, order: seq<string>, macos: bool, pascal: string -> string)
    requires forall j :: 0 <= j < |order| ==> order[j] in cfg.additions
    ensures var ls := HostLines(cfg, keyPath, order, macos, pascal);
      && |ls| == 7 + |order| + (if macos then 1 else 0)
      && ls[..7] == FixedLines(cfg, keyPath)
      && (forall j :: 0 <= j < |order| ==> ls[7 + j] == AdditionLine(order[j], cfg.additions[order[j]], pascal))
      && (macos ==> ls[|ls| - 1] == "\tUseKeychain yes")
  {
    var fixed := FixedLines(cfg, keyPath);
    var additions := AdditionLines(order, cfg.additions, pascal);
    var ls := fixed + additions + KeychainLines(macos);
    assert ls[..7] == fixed;
    assert forall j :: 0 <= j < |order| ==> ls[7 + j] == additions[j];
  }

  /** Read back line by line, the block has exactly its lines, when the key,
      hostname, key path, converted option names and values are single lines. */
  lemma BlockLines(cfg: SshConfig, keyPath: Path, order: seq<string>, macos: bool, pascal: string -> string)
    requires IsEnumeration(order, cfg.additions) && SingleLineEntry(cfg, keyPath, pascal)
    ensures Lines(Unlines(HostLines(cfg, keyPath, order, macos, pascal))) == HostLines(cfg, keyPath, order, macos, pascal)
    ensures |Lines(Unlines(HostLines(cfg, keyPath, order, macos, pascal)))| == 7 + |cfg.additions| + (if macos then 1 else 0)
  {
    HostLinesSingle(cfg, keyPath, order, macos, pascal);
    LinesUnlines(HostLines(cfg, keyPath, order, macos, pascal));
    HostLinesShape(cfg, keyPath, order, macos, pascal);
    EnumerationLength(order, cfg.additions);
  }

  /** Each addition contributes exactly one line of the block. */
  lemma AdditionOnce(cfg: SshConfig, keyPath: Path, order: seq<string>, macos: bool, pascal: string -> string,
                     name: string)
    requires IsEnumeration(order, cfg.additions) && name in cfg.additions
    ensures var ls := HostLines(cfg, keyPath, order, macos, pascal);
      exists j :: 0 <= j < |order| && order[j] == name && ls[7 + j] == AdditionLine(name, cfg.additions[name], pascal)
        && forall i :: 0 <= i < |order| && order[i] == name ==> i == j
  {
    var j :| 0 <= j < |order| && order[j] == name;
    forall i | 0 <= i < |order| && order[i] == name
      ensures i == j
    {
      if i < j { assert false; }
      if j < i { assert false; }
    }
    HostLinesShape(cfg, keyPath, order, macos, pascal);
  }

  /** Solver aid: regrouping the pieces of the fixed lines. This and the
      three literal lemmas below only split `FixedBlockText`'s proof into
      steps the solver takes cheaply; they state nothing about the
      generator. */
  lemma RegroupFixed(x0: string, x1: string, k: string, n: string, x2: string, h: string,
                     x3: string, x4: string, x5: string, p: string)
    ensures x0 + (x1 + k + n) + (x2 + h + n) + x3 + x4 + (x5 + p + n)
      == (x0 + x1) + k + (n + x2) + h + (n + x3 + x4 + x5) + p + n
  {
  }

  lemma FixedPieces()
    ensures Banner + "\n\n" + "Host " == "# AUTO GENERATED FILE. DO NOT EDIT\n\nHost "
    ensures "\n" + "\tHostname " == "\n\tHostname "
    ensures "\n" + "\tAddKeysToAgent yes\n" + "\tIdentitiesOnly yes\n" + "\tIdentityFile "
      == "\n\tAddKeysToAgent yes\n\tIdentitiesOnly yes\n\tIdentityFile "
  {
    HeaderPiece();
    DirectivesPiece();
  }

  lemma HeaderPiece()
    ensures Banner + "\n\n" + "Host " == "# AUTO GENERATED FILE. DO NOT EDIT\n\nHost "
  {
  }

  lemma DirectivesPiece()
    ensures "\n" + "\tAddKeysToAgent yes\n" + "\tIdentitiesOnly yes\n" + "\tIdentityFile "
      == "\n\tAddKeysToAgent yes\n\tIdentitiesOnly yes\n\tIdentityFile "
  {
    assert "\n" + "\tAddKeysToAgent yes\n" == "\n\tAddKeysToAgent yes\n";
    assert "\n\tAddKeysToAgent yes\n" + "\tIdentitiesOnly yes\n" == "\n\tAddKeysToAgent yes\n\tIdentitiesOnly yes\n";
  }

  /** The text of the fixed lines, written out. */
  lemma FixedBlockText(cfg: SshConfig, keyPath: Path)
    ensures Unlines(FixedLines(cfg, keyPath)) ==
      "# AUTO GENERATED FILE. DO NOT EDIT\n\nHost " + cfg.key + "\n\tHostname " + cfg.hostname
      + "\n\tAddKeysToAgent yes\n\tIdentitiesOnly yes\n\tIdentityFile " + keyPath + "\n"
  {
    FixedText(cfg, keyPath);
    RegroupFixed(Banner + "\n\n", "Host ", cfg.key, "\n", "\tHostname ", cfg.hostname,
                 "\tAddKeysToAgent yes\n", "\tIdentitiesOnly yes\n", "\tIdentityFile ", keyPath);
    FixedPieces();
  }

  /** With no additions and not on macOS, the block is exactly the seven fixed
      lines. */
  lemma NoAdditionsBlock(cfg: SshConfig, keyPath: Path, pascal: string -> string)
    requires cfg.additions == map[]
    ensures IsEnumeration([], cfg.additions)
    ensures Unlines(HostLines(cfg, keyPath, [], false, pascal)) ==
      "# AUTO GENERATED FILE. DO NOT EDIT\n\nHost " + cfg.key + "\n\tHostname " + cfg.hostname
      + "\n\tAddKeysToAgent yes\n\tIdentitiesOnly yes\n\tIdentityFile " + keyPath + "\n"
  {
    var fixed := FixedLines(cfg, keyPath);
    assert HostLines(cfg, keyPath, [], false, pascal) == fixed by {
      assert fixed + [] + [] == fixed;
    }
    FixedBlockText(cfg, keyPath);
  }

  /** The block of an entry with one addition: the fixed lines, its
      directive line, and the keychain line on macOS. */
  lemma OneAdditionBlock(cfg: SshConfig, keyPath: Path, name: string, macos: bool, pascal: string -> string)
    requires cfg.additions.Keys == {name}
    ensures IsEnumeration([name], cfg.additions)
    ensures Unlines(HostLines(cfg, keyPath, [name], macos, pascal)) ==
      Unlines(FixedLines(cfg, keyPath)) + (AdditionLine(name, cfg.additions[name], pascal) + "\n")
      + (if macos then "\tUseKeychain yes\n" else "")
  {
    var fixed := FixedLines(cfg, keyPath);
    var line := AdditionLine(name, cfg.additions[name], pascal);
    assert AdditionLines([name], cfg.additions, pascal) == [line];
    var body := fixed + [line];
    KeychainText(body, macos);
    UnlinesSnoc(fixed, line);
    var text := Unlines(body);
    assert text + "" == text;
  }

  /** The entry for key "key" and hostname "host" with the one addition
      `snake_case = yes`, whose name converts to "SnakeCase": the block is the
      fixed lines, the line "\tSnakeCase yes", and on macOS the keychain line. */
  lemma GenerateConfigExample(keyPath: Path, macos: bool, pascal: string -> string)
    requires pascal("snake_case") == "SnakeCase"
    ensures var cfg := SshConfig("key", "host", None, map["snake_case" := "yes"]);
      && IsEnumeration(["snake_case"], cfg.additions)
      && Unlines(HostLines(cfg, keyPath, ["snake_case"], macos, pascal)) ==
        "# AUTO GENERATED FILE. DO NOT EDIT\n\nHost " + "key" + "\n\tHostname " + "host"
        + "\n\tAddKeysToAgent yes\n\tIdentitiesOnly yes\n\tIdentityFile " + keyPath + "\n"
        + "\tSnakeCase yes\n" + (if macos then "\tUseKeychain yes\n" else "")
  {
    var cfg := SshConfig("key", "host", None, map["snake_case" := "yes"]);
    assert cfg.additions.Keys == {"snake_case"};
    OneAdditionBlock(cfg, keyPath, "snake_case", macos, pascal);
    assert AdditionLine("snake_case", "yes", pascal) + "\n" == "\tSnakeCase yes\n";
    FixedBlockText(cfg, keyPath);
  }
}
