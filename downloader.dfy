/** How app.js invokes the external downloader (app.js:90, 99-104): the save
    directory with its default, and the shell command line it hands to
    `execSync`. `Words` is a reference reading of that line: how a POSIX shell
    splits it into arguments, restricted to blanks and double quotes. */
module Downloader {
  import opened Outcomes
  import opened Paths

  /** JavaScript truthiness of the `imagesDir` setting: present and not "". */
  predicate Truthy(setting: Option<string>)
  {
    setting.Some? && setting.value != ""
  }

  /** `imagesDir ? imagesDir : path.join(__dirname, 'images')` (app.js:90). */
  function SaveDir(imagesDir: Option<string>, programDir: string): (r: string)
    ensures r != ""
    ensures Truthy(imagesDir) ==> r == imagesDir.value
  {
    if Truthy(imagesDir) then imagesDir.value else JoinPath(programDir, "images")
  }

  /** Without a usable setting the save directory is the `images` directory
      inside the program's own directory. */
  lemma SaveDirFallback(imagesDir: Option<string>, programDir: string)
    requires !Truthy(imagesDir)
    ensures Basename(SaveDir(imagesDir, programDir)) == "images"
    ensures Dirname(SaveDir(imagesDir, programDir)) == programDir
  {
    SplitJoinPath(programDir, "images");
  }

  /** The template literal of app.js:99, written piece by piece. */
  function CommandBase(sessionId: string, name: string, saveDir: string): string
  {
    "./fanbox-dl" + " " + "--skip-files" + " " + "--sessid" + " " + sessionId + " " + "--creator" + " " + name
      + " " + "--save-dir" + " " + "\"" + saveDir + "\""
  }

  /** The command once the `--force` check of app.js:102-104 has run. */
  function DownloaderCommand(sessionId: string, name: string, saveDir: string, force: bool): string
  {
    CommandBase(sessionId, name, saveDir) + (if force then " --all" else "")
  }

  predicate EndsWith(s: string, suffix: string)
  {
    |suffix| <= |s| && s[|s| - |suffix|..] == suffix
  }

  /** The command always starts with the fixed flags and the three values, and
      it ends in ` --all` exactly when the force flag is set; nothing else is
      ever appended. */
  lemma CommandShape(sessionId: string, name: string, saveDir: string, force: bool)
    ensures CommandBase(sessionId, name, saveDir) <= DownloaderCommand(sessionId, name, saveDir, force)
    ensures |DownloaderCommand(sessionId, name, saveDir, force)|
            == |CommandBase(sessionId, name, saveDir)| + (if force then 6 else 0)
    ensures EndsWith(DownloaderCommand(sessionId, name, saveDir, force), " --all") <==> force
  {
    var base := CommandBase(sessionId, name, saveDir);
    var cmd := DownloaderCommand(sessionId, name, saveDir, force);
    if force {
      assert cmd[|cmd| - 6..] == " --all";
    } else {
      assert cmd == base;
      assert base[|base| - 1] == '"';
    }
  }

  /** Where a shell is after reading part of a command line: the words it has
      finished, the word it is reading (`inWord` says whether one is open, so
      that `""` still makes an empty word) and whether a double quote is open. */
  datatype Scanner = Scanner(done: seq<string>, cur: string, inWord: bool, quoted: bool)

  const Start := Scanner([], "", false, false)

  /** One character of shell word splitting over blanks and double quotes. */
  function Step(st: Scanner, c: char): Scanner
  {
    if c == '"' then st.(inWord := true, quoted := !st.quoted)
    else if c == ' ' && !st.quoted then Scanner(st.done + (if st.inWord then [st.cur] else []), "", false, false)
    else st.(cur := st.cur + [c], inWord := true)
  }

  function Scan(s: string): Scanner
  {
    if s == [] then Start else Step(Scan(s[..|s| - 1]), s[|s| - 1])
  }

  /** The argument vector a shell derives from a command line. */
  function Words(s: string): seq<string>
  {
    var st := Scan(s);
    st.done + (if st.inWord then [st.cur] else [])
  }

  /** Text made of characters that mean nothing special to a POSIX shell
      outside quotes: letters, digits and `-_./:=@%+,`. No blank, quote,
      backslash, `$`, backquote, operator (`;|&<>()`), comment sign, glob or
      brace character can occur in it. */
  predicate SafeChar(c: char)
  {
    ('a' <= c <= 'z') || ('A' <= c <= 'Z') || ('0' <= c <= '9')
    || c == '-' || c == '_' || c == '.' || c == '/' || c == ':' || c == '='
    || c == '@' || c == '%' || c == '+' || c == ','
  }

  predicate Plain(w: string)
  {
    forall i :: 0 <= i < |w| ==> SafeChar(w[i])
  }

  /** Text that a POSIX shell keeps literally between double quotes: none of
      the four characters that stay special there (`"`, `\`, `$`, backquote). */
  predicate QuoteSafe(d: string)
  {
    forall i :: 0 <= i < |d| ==> d[i] != '"' && d[i] != '\\' && d[i] != '$' && d[i] != '`'
  }

  /** Text that only extends the current word when read without quotes. */
  predicate Unbroken(w: string)
  {
    ' ' !in w && '"' !in w
  }

  lemma PlainIsUnbroken(w: string)
    requires Plain(w)
    ensures Unbroken(w)
  {
    forall i | 0 <= i < |w|
      ensures w[i] != ' ' && w[i] != '"'
    {
      assert SafeChar(w[i]);
    }
  }

  lemma QuoteSafeHasNoQuote(d: string)
    requires QuoteSafe(d)
    ensures '"' !in d
  {
  }

  /** The arguments the downloader is meant to receive. */
  function Argv(sessionId: string, name: string, saveDir: string, force: bool): seq<string>
  {
    ["./fanbox-dl", "--skip-files", "--sessid", sessionId, "--creator", name, "--save-dir", saveDir]
      + (if force then ["--all"] else [])
  }

  /** Reading text without blanks or quotes (or, inside quotes, without
      quotes) only extends the current word. */
  lemma {:induction false} ScanWord(x: string, w: string)
    requires '"' !in w
    requires ' ' in w ==> Scan(x).quoted
    ensures Scan(x + w) == Scan(x).(cur := Scan(x).cur + w, inWord := Scan(x).inWord || w != [])
  {
    if w == [] {
      assert x + w == x;
      assert Scan(x).cur + w == Scan(x).cur;
    } else {
      var init := w[..|w| - 1];
      assert (x + w)[..|x + w| - 1] == x + init;
      assert '"' !in init && (' ' in init ==> ' ' in w) by {
        forall i | 0 <= i < |init| ensures init[i] == w[i] { }
      }
      ScanWord(x, init);
      assert init + [w[|w| - 1]] == w;
      assert Scan(x).cur + init + [w[|w| - 1]] == Scan(x).cur + w;
    }
  }

  lemma ScanBlank(x: string)
    requires !Scan(x).quoted
    ensures Scan(x + " ") == Scanner(Scan(x).done + (if Scan(x).inWord then [Scan(x).cur] else []), "", false, false)
  {
    assert (x + " ")[..|x + " "| - 1] == x;
  }

  lemma ScanQuote(x: string)
    ensures Scan(x + "\"") == Scan(x).(inWord := true, quoted := !Scan(x).quoted)
  {
    assert (x + "\"")[..|x + "\""| - 1] == x;
  }

  /** A closed word followed by a blank: the shell has finished it. */
  lemma ScanWordBlank(x: string, w: string)
    requires Unbroken(w) && w != []
    requires Scan(x) == Scanner(Scan(x).done, "", false, false)
    ensures Scan(x + w + " ") == Scanner(Scan(x).done + [w], "", false, false)
  {
    ScanWord(x, w);
    assert "" + w == w;
    ScanBlank(x + w);
  }

  lemma LiteralsAreUnbroken()
    ensures Unbroken("./fanbox-dl") && Unbroken("--skip-files") && Unbroken("--sessid")
    ensures Unbroken("--creator") && Unbroken("--save-dir") && Unbroken("--all")
  {
  }

  /** The shell's state after the program name and the flags before the
      session id. */
  lemma ScanHead()
    ensures Scan("./fanbox-dl" + " " + "--skip-files" + " " + "--sessid" + " ")
            == Scanner(["./fanbox-dl", "--skip-files", "--sessid"], "", false, false)
  {
    LiteralsAreUnbroken();
    assert "" + "./fanbox-dl" == "./fanbox-dl";
    ScanWordBlank("", "./fanbox-dl");
    ScanWordBlank("./fanbox-dl" + " ", "--skip-files");
    ScanWordBlank("./fanbox-dl" + " " + "--skip-files" + " ", "--sessid");
  }

  /** From a word boundary: the creator flag, the name and the save-dir flag. */
  lemma ScanCreatorFlags(x: string, name: string)
    requires Scan(x) == Scanner(Scan(x).done, "", false, false)
    requires Unbroken(name) && name != []
    ensures Scan(x + "--creator" + " " + name + " " + "--save-dir" + " ")
            == Scanner(Scan(x).done + ["--creator", name, "--save-dir"], "", false, false)
  {
    LiteralsAreUnbroken();
    ScanWordBlank(x, "--creator");
    ScanWordBlank(x + "--creator" + " ", name);
    ScanWordBlank(x + "--creator" + " " + name + " ", "--save-dir");
  }

  /** From a word boundary, a double-quoted text without quotes. */
  lemma ScanQuotedWord(x: string, d: string)
    requires Scan(x) == Scanner(Scan(x).done, "", false, false)
    requires '"' !in d
    ensures Scan(x + "\"" + d + "\"") == Scanner(Scan(x).done, d, true, false)
  {
    ScanQuote(x);
    ScanWord(x + "\"", d);
    assert "" + d == d;
    ScanQuote(x + "\"" + d);
  }

  /** From a word boundary: the creator flag, the name, the save-dir flag and
      the quoted save directory. */
  lemma ScanTail(x: string, name: string, saveDir: string)
    requires Scan(x) == Scanner(Scan(x).done, "", false, false)
    requires Unbroken(name) && name != []
    requires '"' !in saveDir
    ensures Scan(x + "--creator" + " " + name + " " + "--save-dir" + " " + "\"" + saveDir + "\"")
            == Scanner(Scan(x).done + ["--creator", name, "--save-dir"], saveDir, true, false)
  {
    ScanCreatorFlags(x, name);
    ScanQuotedWord(x + "--creator" + " " + name + " " + "--save-dir" + " ", saveDir);
  }

  lemma ScanCommandBase(sessionId: string, name: string, saveDir: string)
    requires Unbroken(sessionId) && sessionId != []
    requires Unbroken(name) && name != []
    requires '"' !in saveDir
    ensures Scan(CommandBase(sessionId, name, saveDir))
            == Scanner(["./fanbox-dl", "--skip-files", "--sessid", sessionId, "--creator", name, "--save-dir"], saveDir, true, false)
  {
    var head := "./fanbox-dl" + " " + "--skip-files" + " " + "--sessid" + " ";
    ScanHead();
    ScanWordBlank(head, sessionId);
    ScanTail(head + sessionId + " ", name, saveDir);
  }

  /** After an open, unquoted word, a blank and a plain word close it and
      add one more argument. */
  lemma WordsAfterBlank(x: string, w: string)
    requires Scan(x).inWord && !Scan(x).quoted
    requires Unbroken(w) && w != []
    ensures Words(x + " " + w) == Scan(x).done + [Scan(x).cur, w]
  {
    ScanBlank(x);
    ScanWord(x + " ", w);
    assert "" + w == w;
  }

  /** The force suffix of app.js:103 is one more argument. */
  lemma WordsWithAll(x: string)
    requires Scan(x).inWord && !Scan(x).quoted
    ensures Words(x + " --all") == Scan(x).done + [Scan(x).cur, "--all"]
  {
    LiteralsAreUnbroken();
    WordsAfterBlank(x, "--all");
    assert x + " --all" == x + " " + "--all";
  }

  /** The command passes exactly the intended arguments, provided the session
      id and the creator name are non-empty and made of characters without
      meaning to the shell, and the save directory holds none of the
      characters that stay special between double quotes. On such text blanks
      and double quotes are the only shell syntax that occurs, so `Words`
      reads the line as a POSIX shell does. */
  lemma CommandWords(sessionId: string, name: string, saveDir: string, force: bool)
    requires Plain(sessionId) && sessionId != []
    requires Plain(name) && name != []
    requires QuoteSafe(saveDir)
    ensures Words(DownloaderCommand(sessionId, name, saveDir, force)) == Argv(sessionId, name, saveDir, force)
  {
    PlainIsUnbroken(sessionId);
    PlainIsUnbroken(name);
    QuoteSafeHasNoQuote(saveDir);
    var base := CommandBase(sessionId, name, saveDir);
    ScanCommandBase(sessionId, name, saveDir);
    if force {
      WordsWithAll(base);
    } else {
      assert base + "" == base;
    }
  }

  /** What the unquoted session id costs: one containing a blank reaches the
      downloader as two arguments, shifting every later argument by one. */
  lemma SessionIdWithBlankSplits(a: string, b: string, name: string, saveDir: string)
    requires Plain(a) && a != [] && Plain(b) && b != []
    requires Plain(name) && name != []
    requires QuoteSafe(saveDir)
    ensures Words(DownloaderCommand(a + " " + b, name, saveDir, false))
            == ["./fanbox-dl", "--skip-files", "--sessid", a, b, "--creator", name, "--save-dir", saveDir]
  {
    PlainIsUnbroken(a);
    PlainIsUnbroken(b);
    PlainIsUnbroken(name);
    QuoteSafeHasNoQuote(saveDir);
    var head := "./fanbox-dl" + " " + "--skip-files" + " " + "--sessid" + " ";
    ScanHead();
    ScanWordBlank(head, a);
    ScanWordBlank(head + a + " ", b);
    assert head + (a + " " + b) + " " == head + a + " " + b + " ";
    ScanTail(head + (a + " " + b) + " ", name, saveDir);
    var base := CommandBase(a + " " + b, name, saveDir);
    assert base + "" == base;
  }

  /** An empty session id adds no argument at all, so the downloader takes
      `--creator` as the session id and every later argument moves up by one. */
  lemma EmptySessionIdShifts(name: string, saveDir: string)
    requires Plain(name) && name != []
    requires QuoteSafe(saveDir)
    ensures Words(DownloaderCommand("", name, saveDir, false))
            == ["./fanbox-dl", "--skip-files", "--sessid", "--creator", name, "--save-dir", saveDir]
  {
    PlainIsUnbroken(name);
    QuoteSafeHasNoQuote(saveDir);
    var head := "./fanbox-dl" + " " + "--skip-files" + " " + "--sessid" + " ";
    ScanHead();
    ScanBlank(head);
    assert head + "" + " " == head + " ";
    ScanTail(head + " ", name, saveDir);
    var base := CommandBase("", name, saveDir);
    assert base + "" == base;
  }

  /** The error `execSync` throws when the command exits with a failure
      status and its error output is not captured (`stdio: 'inherit'`, as at
      app.js:109): its message is the command line itself after a fixed
      prefix. */
  function ExecFailureMessage(command: string): string
  {
    "Command failed: " + command
  }

  /** The session id appears verbatim in the command line, right after
      `--sessid `, which starts at offset 25. */
  lemma CommandCarriesSessionId(sessionId: string, name: string, saveDir: string, force: bool)
    ensures var cmd := DownloaderCommand(sessionId, name, saveDir, force);
      34 + |sessionId| <= |cmd| && cmd[25..34 + |sessionId|] == "--sessid " + sessionId
  {
    var cmd := DownloaderCommand(sessionId, name, saveDir, force);
    var x := "./fanbox-dl" + " " + "--skip-files" + " " + "--sessid" + " " + sessionId;
    var leak := "--sessid " + sessionId;
    assert |x| == 34 + |sessionId|;
    forall k | 0 <= k < |x|
      ensures cmd[k] == x[k]
    {
    }
    forall k | 0 <= k < |leak|
      ensures x[25 + k] == leak[k]
    {
    }
    assert cmd[25..34 + |sessionId|] == leak;
  }

  /** The failure message of the downloader command holds `--sessid ` and the
      session id at offset 41. */
  lemma ExecFailureCarriesSessionId(sessionId: string, name: string, saveDir: string, force: bool)
    ensures var m := ExecFailureMessage(DownloaderCommand(sessionId, name, saveDir, force));
      50 + |sessionId| <= |m| && m[41..50 + |sessionId|] == "--sessid " + sessionId
  {
    var cmd := DownloaderCommand(sessionId, name, saveDir, force);
    var m := ExecFailureMessage(cmd);
    CommandCarriesSessionId(sessionId, name, saveDir, force);
    forall k | 41 <= k < 50 + |sessionId|
      ensures m[k] == cmd[k - 16]
    {
    }
    assert m[41..50 + |sessionId|] == cmd[25..34 + |sessionId|];
  }
}
