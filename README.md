# SSH host-entry generator, modelled in Dafny

This project models the SSH part of `dotfile-rs`, the per-host config generator in `src/ssh/config.rs`. For one host entry (a key name, a hostname, an optional comment and extra `ssh_config` options) it runs three steps, in order:

1. **Include step.** It makes sure the master `ssh/config` file holds the line `Include <dir>/*`, where `<dir>` is the directory of generated host files. It reads the file line by line, trims each line and compares it with the include line. When no line matches, it appends the include line and a newline. Then it creates the generated-files directory.
2. **Key generation.** It runs the external `skm` tool to create an Ed25519 key pair for the host.
3. **Config write.** It checks that the public key exists, then that the private key exists, and fails if either is missing. It then renders the host block and writes it to `<ssh_config>/<key>`, truncating whatever the file held. The block has a banner, an empty line, the `Host`, `Hostname`, `AddKeysToAgent`, `IdentitiesOnly` and `IdentityFile` lines, one line per extra option with the option name in PascalCase, and on macOS a final `UseKeychain yes` line.

The files:

- `text.dfy` (module `Text`): the Rust standard-library text operations the generator relies on. `str::trim` removes Unicode White_Space from both ends. `BufRead::lines` splits at '\n', drops one '\r' before it, and keeps an unterminated last line. `Unlines` is its inverse for single lines. The module also proves how appending text changes the lines read back.
- `fs.dfy` (module `Fs`): paths, `Path::join` on Unix, and a `FileSystem` class whose fields hold the file texts and the set of directories. Its methods follow the open modes the generator uses: create-and-read, append, truncate-and-write, and `create_dir_all`.
- `ssh.dfy` (module `Ssh`): the entry and its construction from the command-line arguments, and the three steps as methods on the `FileSystem`. `IncludeSshConfigDir`, `RenderHostBlock`, `GenerateSshConfig` and `Generate` are proved against specification functions of the old state, `IncludeStep` and `HostLines`. `GenerateKey` is stated in terms of the `skm` parameter, and `CheckKey` states its three outcomes directly.
- `properties.dfy` (module `SshProperties`): lemmas about those functions. They cover when the include step appends, idempotence and its limits, the exact block text, and how the block reads back line by line.

Things the model takes as parameters:

- **PascalCase conversion.** The conversion from the `convert_case` library is a parameter `pascal: string -> string`. The one fact pinned down is the source test's `pascal("snake_case") == "SnakeCase"`.
- **macOS switch.** The compile-time switch is a `macos: bool` parameter.
- **Map order.** The iteration order of the additions' hash map is a parameter `order`. The model only requires that it lists every key exactly once (`IsEnumeration`).
- **The `skm` process.** The tool is a parameter `skm: KeyTool`, a function from the program path, its arguments and the filesystem to the filesystem it leaves and its exit status.
- **Panics.** A panic (`exit_ok().unwrap()`, or the two panics of `check_key`) ends the run. The model returns it as `Err` of `Failure`.
- **The directory layout.** The paths `ssh()`, `ssh_config()`, `skm()` and `bin()`, and the directory name in the include line, come from `Prefix`, which is not part of this model. They are fields of the `Prefix` datatype.

Two consequences of the source's include step:

- **Matching.** Each line is compared after `trim()` (config.rs:35). So a line with surrounding whitespace matches the include line, and the model matches it too.
- **Idempotence.** On non-empty text that does not end in '\n' and has no matching line, the include text is glued onto the last line. Unless that line is only whitespace, the glued line does not trim to the include line, so a second run appends it again (`SshProperties.IncludeStepNotIdempotentUnterminated`, `SshProperties.IncludeStepNotIdempotentOnX`).
  - The step is idempotent on text that is empty or ends in '\n' (`SshProperties.IncludeStepIdempotent`).
  - Any text settles after two runs (`SshProperties.IncludeStepSettles`).

## Model

| member | source | states |
|---|---|---|
| Text.Trim | src/ssh/config.rs:35 | the trimmed line is the slice of the line left once its leading and trailing Unicode whitespace are removed: only whitespace precedes and follows it, and neither of its ends is whitespace; a line whose ends are not whitespace is its own trim |
| Text.Lines | src/ssh/config.rs:31-33 | no line read holds a '\n', and the text has lines exactly when it is non-empty |
| Text.LinesUnlines | src/ssh/config.rs:31-33 | text written as single lines, each followed by '\n', reads back as exactly those lines |
| Text.LinesConcat | src/ssh/config.rs:43-46 | text appended to empty or '\n'-terminated text adds its own lines after the old ones |
| Text.LinesSnocLine | src/ssh/config.rs:43-46 | appending a single line and '\n' to terminated text adds exactly that line |
| Text.LinesGlue | src/ssh/config.rs:43-46 | text appended to a non-empty text that does not end in '\n' adds no line: it is glued onto the last line |
| Fs.Join | src/ssh/config.rs:23 | the joined path ends with the name; a relative name extends the base, and an absolute name replaces it |
| Fs.FileSystem.OpenCreate | src/ssh/config.rs:24-29 | the text read is the file's old text, or empty when the file did not exist, and the file now exists with that text |
| Fs.FileSystem.Append | src/ssh/config.rs:45 | the file's text is its old text followed by the written text; nothing else changes |
| Fs.FileSystem.WriteTruncate | src/ssh/config.rs:104-111 | the file holds exactly the written text, whatever it held before; nothing else changes |
| Fs.Disk.Exists | src/ssh/config.rs:70-73 | a path that does not exist, as a file or a directory, reads as empty text |
| Fs.FileSystem.Replace | src/ssh/config.rs:63 | the filesystem becomes exactly the one the external tool left |
| Fs.FileSystem.CreateDirAll | src/ssh/config.rs:47 | the directory exists afterwards; files are unchanged |
| Ssh.CollectAdditions | src/ssh/config.rs:127 | the collected map has no more entries than there were pairs |
| Ssh.CollectAdditionsKeys | src/ssh/config.rs:127 | the collected map's keys are exactly the option names given |
| Ssh.CollectAdditionsLastWins | src/ssh/config.rs:127 | an option named more than once gets the value of its last occurrence |
| Ssh.FromArgs | src/ssh/config.rs:121-130 | key, hostname and comment are copied; the additions map has exactly the given names, each with its last value |
| Ssh.IncludeLine | src/ssh/config.rs:11 | the include line is a single line when the directory name holds no newline |
| Ssh.IncludeLineTrimmed | src/ssh/config.rs:35 | trimming leaves the include line unchanged, so a line it was written as matches it |
| Ssh.MasterPath | src/ssh/config.rs:22-23 | the master config is the file `config` directly inside the SSH directory |
| Ssh.IncludeStep | src/ssh/config.rs:32-46 | the old text is kept as a prefix; the text is unchanged exactly when some line already trims to the include line, and otherwise the include line and '\n' are what is added |
| Ssh.MissingInclude | src/ssh/config.rs:31-41 | the scan reports the line missing exactly when no line of the file trims to the include line |
| Ssh.IncludeSshConfigDir | src/ssh/config.rs:21-48 | the master config afterwards holds `IncludeStep` of its old text; it is created empty first when it did not exist; the generated-files directory exists; nothing else changes |
| Ssh.SkmProgram | src/ssh/config.rs:51 | the tool is the program `skm` directly inside the binary directory |
| Ssh.KeyComment | src/ssh/config.rs:59 | the key's comment is the entry's comment when it has one, otherwise its hostname |
| Ssh.SkmArgs | src/ssh/config.rs:53-61 | the arguments are exactly `--store-path <skm> create <key> -C <comment> -t ed25519`, in that order |
| Ssh.GenerateKey | src/ssh/config.rs:50-64 | the tool is run as `<bin>/skm` with those arguments on the current filesystem; the filesystem becomes what it leaves, and success is its exit status |
| Ssh.PublicKeyPath | src/ssh/config.rs:67-69 | the public key's path is the private key's path with `.pub` appended |
| Ssh.PrivateKeyPath | src/ssh/config.rs:67-69 | for a key name that is not an absolute path, the private key's path starts with the key store's path |
| Ssh.CheckKey | src/ssh/config.rs:66-78 | a missing public key fails first, then a missing private key; with both present the result is the private key's path |
| Ssh.AdditionLines | src/ssh/config.rs:92-94 | one directive line per addition, in iteration order, each a tab, the PascalCase name, a space and the value |
| Ssh.FixedText | src/ssh/config.rs:84-90 | the text the first six appends build is exactly the seven fixed lines, each followed by '\n' |
| Ssh.AdditionStep | src/ssh/config.rs:92-94 | each loop iteration appends the next addition's line and '\n' |
| Ssh.KeychainText | src/ssh/config.rs:96-99 | on macOS the keychain line and '\n' end the text; otherwise nothing is added |
| Ssh.HostLines | src/ssh/config.rs:84-99 | the block has seven fixed lines, one line per addition iterated, and one more on macOS |
| Ssh.RenderHostBlock | src/ssh/config.rs:84-99 | the text built is exactly the block's lines, each followed by '\n' |
| Ssh.HostConfigPath | src/ssh/config.rs:81 | the host's file path ends with the key; for a relative key it starts with the generated-files directory's path, and an absolute key replaces that directory |
| Ssh.GenerateSshConfig | src/ssh/config.rs:80-112 | the two key failures come first and leave the filesystem unchanged; otherwise the host's file holds exactly the block with the private key's path, replacing any old content, and nothing else changes |
| Ssh.Generate | src/ssh/config.rs:114-118 | the include step runs first, key generation runs on what it leaves, and a failed tool stops the run; the config write, with its key checks, runs on the filesystem the tool left |
| SshProperties.IncludeLineAppended | src/ssh/config.rs:43-46 | appending the include line to terminated text adds it as the last line, after which the file includes it |
| SshProperties.IncludeStepAppends | src/ssh/config.rs:32-46 | terminated text with no matching line gets exactly the include line and '\n' appended, and then has it |
| SshProperties.IncludeStepIdempotent | src/ssh/config.rs:21-48 | on empty or '\n'-terminated text a second include step changes nothing |
| SshProperties.IncludeStepAppendOnly | src/ssh/config.rs:43-46 | for any text, the old text is a prefix of the new one and at most one line is added |
| SshProperties.IncludeStepNotIdempotentUnterminated | src/ssh/config.rs:43-46 | a one-line text that starts with a non-whitespace character, has no trailing newline and does not match gets the include text glued onto its line, and a second step appends it again |
| SshProperties.IncludeStepNotIdempotentOnX | src/ssh/config.rs:43-46 | the concrete case: after "x", a second include step changes the file |
| SshProperties.IncludeStepSettles | src/ssh/config.rs:21-48 | for any text, a third include step changes nothing after two |
| SshProperties.IncludeStepEmpty | src/ssh/config.rs:175-186 | an empty or missing master config becomes exactly the include line and '\n' |
| SshProperties.IncludeStepTwoLines | src/ssh/config.rs:32-46 | two terminated lines, neither matching, get the include line appended, and a second run keeps that text |
| SshProperties.IncludeStepOtherLines | src/ssh/config.rs:188-217 | "test content\ntest config\n" gets the include line appended; the result, run again, is unchanged |
| SshProperties.EnumerationLength | src/ssh/config.rs:92 | iterating the additions visits as many entries as the map has keys |
| SshProperties.AdditionLineSingle | src/ssh/config.rs:93 | a directive line is a single line when the converted name holds no newline and the value is a single line |
| SshProperties.HostLinesSingle | src/ssh/config.rs:84-99 | every line of the block is a single line when the key, hostname, key path, converted names and values are |
| SshProperties.HostLinesShape | src/ssh/config.rs:84-99 | the block has 7 + (number of additions) lines, plus one on macOS; the first seven are the fixed lines; addition j is line 7 + j; on macOS the keychain line is last |
| SshProperties.BlockLines | src/ssh/config.rs:84-99 | the written block reads back line by line as exactly its lines, 7 + (number of additions) of them, plus one on macOS |
| SshProperties.AdditionOnce | src/ssh/config.rs:92-94 | each addition contributes exactly one directive line, placed after the identity-file line |
| SshProperties.FixedBlockText | src/ssh/config.rs:84-90 | the fixed lines are exactly "# AUTO GENERATED FILE. DO NOT EDIT\n\nHost k\n\tHostname h\n\tAddKeysToAgent yes\n\tIdentitiesOnly yes\n\tIdentityFile p\n" |
| SshProperties.NoAdditionsBlock | src/ssh/config.rs:84-90 | with no additions and not on macOS, the block is exactly that text |
| SshProperties.OneAdditionBlock | src/ssh/config.rs:92-99 | with one addition, the block is the fixed text, that addition's line and '\n', and the keychain line on macOS |
| SshProperties.GenerateConfigExample | src/ssh/config.rs:220-240 | for key "key", hostname "host" and the addition snake_case = yes, the block is the fixed text, then "\tSnakeCase yes\n", then "\tUseKeychain yes\n" on macOS |

## Left out

- Logging (`log::info!`, `log::trace!`): it has no effect on the files.
- I/O errors: opening, reading or writing failures and a missing parent directory end the source with a panic (`unwrap`). The model treats every filesystem call as succeeding.
- Fs.FileSystem.CreateDirAll: adds only the directory itself, not its missing ancestors. Nothing else in the model depends on the ancestors.
- Fs.Disk: files and directories are keyed by the text of their path. So different spellings of one file (`d/./k`, `d//k`, `d/x/../k`) and files reached through symbolic links are different files in the model. The generator joins the user-supplied key (config.rs:67, config.rs:81), which need not be a plain name, so this matters when the key holds such parts.
- Ssh.GenerateKey: spawning and waiting for `skm` are not modelled. The tool is the `skm` parameter, and a failure to spawn or wait counts as a failed exit.
- Ssh.MissingInclude: a line that is not valid UTF-8 makes `line.unwrap()` panic in the source. The model's text is a sequence of characters, so this case cannot occur.
- Ssh.RenderHostBlock: the key path is written as text. The panic of `into_string().unwrap()` on a non-UTF-8 path is not modelled, for the same reason.
- Ssh.RenderHostBlock: the additions' order is the `order` parameter, not the hash map's actual iteration order. The contracts hold for every order.
- Ssh.RenderHostBlock: PascalCase conversion is the `pascal` parameter. Two things are assumed about it. `SshProperties.GenerateConfigExample` assumes `snake_case` ↦ `SnakeCase`. `SshProperties.HostLinesSingle` and `SshProperties.BlockLines` assume that no converted option name holds a '\n', through `SingleLineEntry` and `SshProperties.AdditionLineSingle`.
- The `Prefix` layout and the directory-name constant come from `src/prefix.rs`, which is not part of this model. The lemmas about the include line require only that the directory name holds no newline.
- `SshArgs` and the command line are defined in `src/ssh/mod.rs`, which is not part of this model. `SshArgs` is reduced to its four fields.
- The test helper `SshConfig::fake` (config.rs:136-166) is fixture setup. The example lemma uses the entry it builds directly.
- `src/install/config.rs` and `src/install/mod.rs`: downloading and installing binaries, and the command-line plumbing. They are outside the SSH generator.
