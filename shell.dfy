/**
 * The shell's command line handling: splitting a line into a command and its
 * arguments, choosing the prompt, and the `cd` command, the only command that
 * changes the shell's current working directory.
 *
 * Whether a path names an existing directory is a question for the file
 * system; it is a parameter `isDir` here, read at the moment of the call.
 */
module Shell {

  const SPACE := ' '
  const HOME_PROMPT := "wsb-shell:~$ "

  /** A parsed command line: the lower-cased first word and the remaining pieces. */
  datatype Token = Token(command: string, arguments: seq<string>)

  /** What executing one token does, as far as this model follows it. */
  datatype Outcome =
    | Blank            // an empty command: nothing happens
    | Exit             // the shell stops
    | Moved            // `cd` changed the current working directory
    | ShowHelp         // `cd --help` or `cd -h` with no such directory
    | NoSuchDirectory  // `cd` to something that is not a directory
    | Delegated        // any other command: handled by code not part of this model

  /** Number of spaces in `s`. */
  function SpaceCount(s: string): nat
  {
    if s == [] then 0 else (if s[0] == SPACE then 1 else 0) + SpaceCount(s[1..])
  }

  /**
   * Python's `s.split(' ')`: the pieces between single spaces, empty pieces
   * included, so there is always at least one piece.
   */
  function Split(s: string): (pieces: seq<string>)
    ensures |pieces| >= 1
    decreases |s|
  {
    if s == [] then [[]]
    else if s[0] == SPACE then [[]] + Split(s[1..])
    else
      var rest := Split(s[1..]);
      [[s[0]] + rest[0]] + rest[1..]
  }

  /** Python's `' '.join(pieces)`. */
  function Join(pieces: seq<string>): string
  {
    if pieces == [] then []
    else if |pieces| == 1 then pieces[0]
    else pieces[0] + [SPACE] + Join(pieces[1..])
  }

  /** Lower-casing of one character (ASCII letters only). */
  function LowerChar(c: char): char
  {
    if 'A' <= c <= 'Z' then (c as int - 'A' as int + 'a' as int) as char else c
  }

  /** Python's `s.lower()`, for ASCII letters. */
  function Lower(s: string): (r: string)
    ensures |r| == |s|
    ensures forall i :: 0 <= i < |s| ==> r[i] == LowerChar(s[i])
  {
    if s == [] then [] else [LowerChar(s[0])] + Lower(s[1..])
  }

  /** What `Shell.commandParser` computes from a line. */
  function Parse(line: string): Token
  {
    var pieces := Split(line);
    Token(Lower(pieces[0]), pieces[1..])
  }

  /** The names under which the `cd` command is known. */
  predicate IsChangeDirectory(command: string)
  {
    command == "change-directory" || command == "change-dir" || command == "chdir" || command == "cd"
  }

  /** The prompt shown for a current working directory. */
  function Prompt(cwd: string, initial: string): string
  {
    if cwd == initial then HOME_PROMPT else "wsb-shell:" + cwd + "$ "
  }

  /** The current working directory after executing `t`. */
  function NextDirectory(cwd: string, initial: string, t: Token, isDir: string -> bool): string
  {
    if !IsChangeDirectory(t.command) then cwd
    else if t.arguments == [] || t.arguments[0] == [] then initial
    else if isDir(t.arguments[0]) then t.arguments[0]
    else cwd
  }

  /** What executing `t` reports. */
  function Effect(t: Token, isDir: string -> bool): Outcome
  {
    if t.command == [] then Blank
    else if t.command == "exit" then Exit
    else if !IsChangeDirectory(t.command) then Delegated
    else if t.arguments == [] || t.arguments[0] == [] then Moved
    else if isDir(t.arguments[0]) then Moved
    else if Lower(t.arguments[0]) == "--help" || Lower(t.arguments[0]) == "-h" then ShowHelp
    else NoSuchDirectory
  }

  // ---- Splitting and joining

  /** Joining the pieces of a split gives the line back. */
  lemma {:induction false} JoinSplit(s: string)
    ensures Join(Split(s)) == s
    decreases |s|
  {
    if s == [] {
    } else if s[0] == SPACE {
      JoinSplit(s[1..]);
      var rest := Split(s[1..]);
      assert Split(s) == [[]] + rest;
      assert (Split(s))[1..] == rest;
      assert s == [SPACE] + s[1..];
    } else {
      JoinSplit(s[1..]);
      var rest := Split(s[1..]);
      var ps := Split(s);
      assert ps == [[s[0]] + rest[0]] + rest[1..];
      if |rest| == 1 {
        assert s == [s[0]] + s[1..];
      } else {
        assert ps[1..] == rest[1..];
        assert Join(rest) == rest[0] + [SPACE] + Join(rest[1..]);
        assert s == [s[0]] + s[1..];
      }
    }
  }

  /** A split has one piece more than the line has spaces. */
  lemma {:induction false} SplitLength(s: string)
    ensures |Split(s)| == SpaceCount(s) + 1
    decreases |s|
  {
    if s != [] {
      SplitLength(s[1..]);
    }
  }

  /** No piece of a split contains a space. */
  lemma {:induction false} SplitPiecesHaveNoSpace(s: string)
    ensures forall i :: 0 <= i < |Split(s)| ==> SPACE !in Split(s)[i]
    decreases |s|
  {
    if s != [] {
      SplitPiecesHaveNoSpace(s[1..]);
      var rest := Split(s[1..]);
      if s[0] != SPACE {
        assert Split(s)[0] == [s[0]] + rest[0];
        forall i | 1 <= i < |Split(s)|
          ensures SPACE !in Split(s)[i]
        {
          assert Split(s)[i] == rest[i];
        }
      } else {
        forall i | 1 <= i < |Split(s)|
          ensures SPACE !in Split(s)[i]
        {
          assert Split(s)[i] == rest[i - 1];
        }
      }
    }
  }

  /** Splitting a joined list of space-free pieces gives the pieces back. */
  lemma {:induction false} SplitJoin(pieces: seq<string>)
    requires |pieces| >= 1
    requires forall i :: 0 <= i < |pieces| ==> SPACE !in pieces[i]
    ensures Split(Join(pieces)) == pieces
    decreases |pieces|
  {
    if |pieces| == 1 {
      SplitWord(pieces[0]);
    } else {
      SplitJoin(pieces[1..]);
      SplitWordSpace(pieces[0], Join(pieces[1..]));
    }
  }

  /** A line without spaces is a single piece. */
  lemma {:induction false} SplitWord(w: string)
    requires SPACE !in w
    ensures Split(w) == [w]
    decreases |w|
  {
    if w != [] {
      SplitWord(w[1..]);
      assert w == [w[0]] + w[1..];
    }
  }

  /** A line made of a space-free word, a space and a rest splits into the word followed by the rest's pieces. */
  lemma {:induction false} SplitWordSpace(w: string, rest: string)
    requires SPACE !in w
    ensures Split(w + [SPACE] + rest) == [w] + Split(rest)
    decreases |w|
  {
    var s := w + [SPACE] + rest;
    if w == [] {
      assert s == [SPACE] + rest;
      assert s[1..] == rest;
    } else {
      assert s[1..] == w[1..] + [SPACE] + rest;
      SplitWordSpace(w[1..], rest);
      assert w == [w[0]] + w[1..];
    }
  }

  // ---- Lower-casing

  /** Lower-casing twice is lower-casing once. */
  lemma LowerIdempotent(s: string)
    ensures Lower(Lower(s)) == Lower(s)
  {
  }

  // ---- Parsing

  /** The number of arguments is the number of spaces in the line. */
  lemma ParseArgumentCount(line: string)
    ensures |Parse(line).arguments| == SpaceCount(line)
  {
    SplitLength(line);
  }

  /**
   * The first piece, in its original case, followed by the arguments, joined by
   * single spaces, is the line; the command is that first piece lower-cased.
   */
  lemma ParseRoundTrip(line: string)
    ensures Parse(line).command == Lower(Split(line)[0])
    ensures |Parse(line).command| == |Split(line)[0]|
    ensures Join([Split(line)[0]] + Parse(line).arguments) == line
  {
    var ps := Split(line);
    assert [ps[0]] + ps[1..] == ps;
    JoinSplit(line);
  }

  /** A line without spaces is all command and no arguments. */
  lemma ParseWord(line: string)
    requires SPACE !in line
    ensures Parse(line) == Token(Lower(line), [])
  {
    SplitWord(line);
  }

  /** Up to the first space is the command; after it, the arguments are the pieces of the rest. */
  lemma ParseFirstSpace(word: string, rest: string)
    requires SPACE !in word
    ensures Parse(word + [SPACE] + rest) == Token(Lower(word), Split(rest))
  {
    SplitWordSpace(word, rest);
  }

  /** The empty line gives the empty command and no arguments, and executing it does nothing. */
  lemma ParseEmpty(cwd: string, initial: string, isDir: string -> bool)
    ensures Parse([]) == Token([], [])
    ensures NextDirectory(cwd, initial, Parse([]), isDir) == cwd
    ensures Effect(Parse([]), isDir) == Blank
  {
  }

  // ---- Prompt

  /**
   * The home prompt is shown when the current working directory is the
   * initial one, and also when it is literally `~`; otherwise the prompt
   * carries the directory.
   */
  lemma PromptShowsHome(cwd: string, initial: string)
    ensures Prompt(cwd, initial) == HOME_PROMPT <==> cwd == initial || cwd == "~"
    ensures cwd != initial ==> Prompt(cwd, initial) == "wsb-shell:" + cwd + "$ "
  {
    var p := "wsb-shell:" + cwd + "$ ";
    if cwd != initial && p == HOME_PROMPT {
      assert |cwd| == 1;
      assert cwd[0] == p[10] == '~';
      assert cwd == "~";
    }
  }

  // ---- cd

  /** `cd` with no argument, or an empty first argument, returns to the initial directory. */
  lemma CdHome(cwd: string, initial: string, t: Token, isDir: string -> bool)
    requires IsChangeDirectory(t.command)
    requires t.arguments == [] || t.arguments[0] == []
    ensures NextDirectory(cwd, initial, t, isDir) == initial
    ensures Effect(t, isDir) == Moved
  {
  }

  /** `cd` to an existing directory makes it the current working directory, whatever its spelling. */
  lemma CdExisting(cwd: string, initial: string, t: Token, isDir: string -> bool)
    requires IsChangeDirectory(t.command)
    requires t.arguments != [] && t.arguments[0] != [] && isDir(t.arguments[0])
    ensures NextDirectory(cwd, initial, t, isDir) == t.arguments[0]
    ensures Effect(t, isDir) == Moved
  {
  }

  /** `cd` to anything that is not a directory, `--help` and `-h` included, leaves the directory alone. */
  lemma CdMissing(cwd: string, initial: string, t: Token, isDir: string -> bool)
    requires IsChangeDirectory(t.command)
    requires t.arguments != [] && t.arguments[0] != [] && !isDir(t.arguments[0])
    ensures NextDirectory(cwd, initial, t, isDir) == cwd
    ensures Effect(t, isDir) == ShowHelp <==> Lower(t.arguments[0]) in {"--help", "-h"}
    ensures Effect(t, isDir) != ShowHelp ==> Effect(t, isDir) == NoSuchDirectory
  {
  }

  /** No command other than `cd` changes the current working directory. */
  lemma OnlyCdMoves(cwd: string, initial: string, t: Token, isDir: string -> bool)
    requires !IsChangeDirectory(t.command)
    ensures NextDirectory(cwd, initial, t, isDir) == cwd
    ensures Effect(t, isDir) != Moved
  {
  }

  /**
   * Typed lines: `cd` and `cd ` (trailing space) return to the initial
   * directory; `cd d`, for an existing space-free directory name `d`, moves
   * there, and the prompt then shows `d` unless it is `~` or the initial one.
   */
  lemma CdLines(cwd: string, initial: string, d: string, isDir: string -> bool)
    requires SPACE !in d && d != [] && isDir(d)
    ensures NextDirectory(cwd, initial, Parse("cd"), isDir) == initial
    ensures NextDirectory(cwd, initial, Parse("cd "), isDir) == initial
    ensures NextDirectory(cwd, initial, Parse("CD " + d), isDir) == d
    ensures d != initial ==> Prompt(NextDirectory(cwd, initial, Parse("cd " + d), isDir), initial) == "wsb-shell:" + d + "$ "
    ensures d != initial && d != "~" ==> Prompt(NextDirectory(cwd, initial, Parse("cd " + d), isDir), initial) != HOME_PROMPT
  {
    ParseWord("cd");
    assert "cd " == "cd" + [SPACE] + [];
    ParseFirstSpace("cd", []);
    assert Split([]) == [[]];
    assert "CD " + d == "CD" + [SPACE] + d;
    ParseFirstSpace("CD", d);
    SplitWord(d);
    assert Lower("CD") == "cd";
    assert "cd " + d == "cd" + [SPACE] + d;
    ParseFirstSpace("cd", d);
    PromptShowsHome(d, initial);
  }

  /**
   * Any spelling of a `cd` alias, in any case, typed alone, followed by one
   * trailing space, or followed by two spaces and anything else (the last two
   * give an empty first argument), returns to the initial directory, and the
   * next prompt is the home prompt.
   */
  lemma CdHomeLine(cwd: string, initial: string, w: string, rest: string, isDir: string -> bool)
    requires SPACE !in w && IsChangeDirectory(Lower(w))
    ensures NextDirectory(cwd, initial, Parse(w), isDir) == initial
    ensures Prompt(NextDirectory(cwd, initial, Parse(w), isDir), initial) == HOME_PROMPT
    ensures NextDirectory(cwd, initial, Parse(w + [SPACE]), isDir) == initial
    ensures Prompt(NextDirectory(cwd, initial, Parse(w + [SPACE]), isDir), initial) == HOME_PROMPT
    ensures NextDirectory(cwd, initial, Parse(w + [SPACE, SPACE] + rest), isDir) == initial
    ensures Prompt(NextDirectory(cwd, initial, Parse(w + [SPACE, SPACE] + rest), isDir), initial) == HOME_PROMPT
  {
    ParseWord(w);
    assert w + [SPACE] == w + [SPACE] + [];
    ParseFirstSpace(w, []);
    assert Split([]) == [[]];
    assert w + [SPACE, SPACE] + rest == w + [SPACE] + ([SPACE] + rest);
    ParseFirstSpace(w, [SPACE] + rest);
    assert ([SPACE] + rest)[1..] == rest;
    assert Split([SPACE] + rest)[0] == [];
  }

  /** After `cd d` to an existing directory, a bare `cd` comes back to the initial directory. */
  lemma CdThereAndBack(cwd: string, initial: string, d: string, isDir: string -> bool)
    requires SPACE !in d && d != [] && isDir(d)
    ensures NextDirectory(cwd, initial, Parse("cd " + d), isDir) == d
    ensures NextDirectory(NextDirectory(cwd, initial, Parse("cd " + d), isDir), initial, Parse("cd"), isDir) == initial
  {
    assert "cd " + d == "cd" + [SPACE] + d;
    ParseFirstSpace("cd", d);
    SplitWord(d);
    ParseWord("cd");
  }

  class Shell {
    var initialDirectory: string
    var currentWorkingDirectory: string
    var shellPrompt: string
    var command: string

    /**
     * Starts in the `data/` directory beside the program. The prompt and the
     * command line are first set by the loop; the empty strings here are only
     * initial values that no pass of the loop reads before setting them.
     */
    constructor (programDirectory: string)
      ensures initialDirectory == programDirectory + "/data/"
      ensures currentWorkingDirectory == initialDirectory
      ensures shellPrompt == [] && command == []
    {
      initialDirectory := programDirectory + "/data/";
      currentWorkingDirectory := initialDirectory;
      shellPrompt := [];
      command := [];
    }

    /** Picks the prompt for the current working directory. */
    method SelectPrompt()
      modifies this`shellPrompt
      ensures shellPrompt == Prompt(currentWorkingDirectory, initialDirectory)
      ensures shellPrompt == HOME_PROMPT <==> currentWorkingDirectory == initialDirectory || currentWorkingDirectory == "~"
    {
      if currentWorkingDirectory == initialDirectory {
        shellPrompt := HOME_PROMPT;
      } else {
        shellPrompt := "wsb-shell:" + currentWorkingDirectory + "$ ";
      }
      PromptShowsHome(currentWorkingDirectory, initialDirectory);
    }

    /** Splits the stored command line into the lower-cased command and the argument pieces. */
    method CommandParser() returns (token: Token)
      ensures token == Parse(command)
      ensures |token.arguments| == SpaceCount(command)
      ensures Join([Split(command)[0]] + token.arguments) == command
    {
      var pieces := Split(command);
      token := Token(Lower(pieces[0]), []);
      var arguments := [];
      for i := 1 to |pieces|
        invariant arguments == pieces[1..i]
      {
        arguments := arguments + [pieces[i]];
      }
      token := token.(arguments := arguments);
      ParseArgumentCount(command);
      ParseRoundTrip(command);
    }

    /** Executes a token; only `cd` and its aliases touch the current working directory. */
    method ExecuteCommand(token: Token, isDir: string -> bool) returns (outcome: Outcome)
      modifies this`currentWorkingDirectory
      ensures currentWorkingDirectory == NextDirectory(old(currentWorkingDirectory), initialDirectory, token, isDir)
      ensures outcome == Effect(token, isDir)
    {
      if token.command == [] {
        outcome := Blank;
      } else if token.command == "exit" {
        outcome := Exit;
      } else if IsChangeDirectory(token.command) {
        if |token.arguments| == 0 {
          currentWorkingDirectory := initialDirectory;
          outcome := Moved;
        } else if token.arguments[0] == [] {
          currentWorkingDirectory := initialDirectory;
          outcome := Moved;
        } else if isDir(token.arguments[0]) {
          currentWorkingDirectory := token.arguments[0];
          outcome := Moved;
        } else if Lower(token.arguments[0]) == "--help" || Lower(token.arguments[0]) == "-h" {
          outcome := ShowHelp;
        } else {
          outcome := NoSuchDirectory;
        }
      } else {
        outcome := Delegated;
      }
    }

    /** One pass of the shell's loop: show the prompt, read `line`, parse it and execute it. */
    method Iterate(line: string, isDir: string -> bool) returns (outcome: Outcome)
      modifies this`shellPrompt, this`command, this`currentWorkingDirectory
      ensures shellPrompt == Prompt(old(currentWorkingDirectory), initialDirectory)
      ensures command == line
      ensures currentWorkingDirectory == NextDirectory(old(currentWorkingDirectory), initialDirectory, Parse(line), isDir)
      ensures outcome == Effect(Parse(line), isDir)
    {
      SelectPrompt();
      command := line;
      var token := CommandParser();
      outcome := ExecuteCommand(token, isDir);
    }
  }
}
