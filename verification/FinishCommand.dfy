/** The printed `--creation-tx` command line, and a POSIX shell reading it back. */
module FinishCommand {
  import opened PortalEvents

  const SAFE_ADDRESS := "--safe-address"
  const SAFE_OUTPUT := "--safe-output"
  const CREATION_TX := "--creation-tx"
  const PLACEHOLDER := "EXECUTION_TX_HASH"
  const CREATION_SUFFIX := CREATION_TX + " <" + PLACEHOLDER + ">"

  predicate IsPlainChar(c: char)
  {
    || '0' <= c <= '9' || 'a' <= c <= 'z' || 'A' <= c <= 'Z'
    || c == '-' || c == '_' || c == '.' || c == '/' || c == ':' || c == '=' || c == '@' || c == ',' || c == '+'
  }

  predicate IsPlain(arg: string)
  {
    arg != [] && forall i :: 0 <= i < |arg| ==> IsPlainChar(arg[i])
  }

  /** Each single quote becomes: close the quotes, an escaped quote, open them again. */
  function ReplaceQuotes(arg: string): string
  {
    if arg == [] then []
    else (if arg[0] == '\'' then "'\\''" else [arg[0]]) + ReplaceQuotes(arg[1..])
  }

  function ShellQuote(arg: string): string
  {
    if IsPlain(arg) then arg else "'" + ReplaceQuotes(arg) + "'"
  }

  predicate IsSafeFlag(arg: string)
  {
    arg == SAFE_ADDRESS || arg == SAFE_OUTPUT
  }

  /** A Safe flag with its value attached by an equals sign. */
  predicate IsSafeAssignment(arg: string)
  {
    SAFE_ADDRESS + "=" <= arg || SAFE_OUTPUT + "=" <= arg
  }

  /** The arguments that remain: a Safe flag goes with the argument after it, if there is one. */
  function Kept(args: seq<string>): seq<string>
  {
    if args == [] then []
    else if IsSafeFlag(args[0]) then if |args| == 1 then [] else Kept(args[2..])
    else if IsSafeAssignment(args[0]) then Kept(args[1..])
    else [args[0]] + Kept(args[1..])
  }

  /** Space-separated, as `join(" ")` prints them. */
  function Joined(words: seq<string>): string
  {
    if words == [] then []
    else if |words| == 1 then words[0]
    else words[0] + " " + Joined(words[1..])
  }

  function Quoted(args: seq<string>): (r: seq<string>)
    ensures |r| == |args| && forall i :: 0 <= i < |args| ==> r[i] == ShellQuote(args[i])
  {
    seq(|args|, i requires 0 <= i < |args| => ShellQuote(args[i]))
  }

  method PrintFinishCommand(args: seq<string>) returns (line: string)
    ensures line == Joined(Quoted(Kept(args)) + [CREATION_SUFFIX])
  {
    var command: seq<string> := [];
    ghost var kept: seq<string> := [];
    var i := 0;
    while i < |args|
      invariant 0 <= i <= |args|
      invariant kept + Kept(args[i..]) == Kept(args)
      invariant command == Quoted(kept)
    {
      var arg := args[i];
      assert args[i..][1..] == args[i + 1..];
      i := i + 1;
      if IsSafeFlag(arg) {
        if i < |args| {
          assert args[i - 1..][2..] == args[i + 1..];
          i := i + 1;
        }
      } else if !IsSafeAssignment(arg) {
        command := command + [ShellQuote(arg)];
        kept := kept + [arg];
      }
    }
    assert args[i..] == [] && kept + [] == kept;
    line := Joined(command + [CREATION_SUFFIX]);
  }

  lemma {:induction false} ReplacingNeverShortens(arg: string)
    ensures |ReplaceQuotes(arg)| >= |arg|
  {
    if arg == [] {
    } else {
      ReplacingNeverShortens(arg[1..]);
    }
  }

  /** Only arguments of letters, digits and a few harmless characters are printed as they are. */
  lemma UnquotedExactly(arg: string)
    ensures ShellQuote(arg) == arg
       <==> arg != [] && forall i :: 0 <= i < |arg| ==>
              '0' <= arg[i] <= '9' || 'a' <= arg[i] <= 'z' || 'A' <= arg[i] <= 'Z' || arg[i] in "-_./:=@,+"
  {
    ReplacingNeverShortens(arg);
  }

  // ---- Which arguments are kept ----------------------------------------------------------------------------------

  /** The argument at `i` is the value of a Safe flag: the one before it is a flag and not itself a value. */
  predicate IsFlagValue(args: seq<string>, i: nat)
    requires i <= |args|
  {
    i > 0 && (args[i - 1] == "--safe-address" || args[i - 1] == "--safe-output") && !IsFlagValue(args, i - 1)
  }

  predicate Stays(args: seq<string>, i: nat)
    requires i < |args|
  {
    && !IsFlagValue(args, i)
    && args[i] != "--safe-address" && !("--safe-address=" <= args[i])
    && args[i] != "--safe-output" && !("--safe-output=" <= args[i])
  }

  /** The arguments from `i` on that stay, judged by their own position. */
  function StayingFrom(args: seq<string>, i: nat): seq<string>
    requires i <= |args|
    decreases |args| - i
  {
    if i == |args| then []
    else (if Stays(args, i) then [args[i]] else []) + StayingFrom(args, i + 1)
  }

  lemma SafeFlagIsNoAssignment(arg: string)
    requires IsSafeFlag(arg)
    ensures !IsSafeAssignment(arg)
  {
    assert |SAFE_ADDRESS| == 14 && |SAFE_OUTPUT| == 13;
    assert SAFE_ADDRESS[7] == 'a' && (SAFE_OUTPUT + "=")[7] == 'o';
  }

  /** The loop keeps exactly the arguments that are no Safe flag, no value of one and no assignment. */
  lemma {:induction false} KeptIsWhatStays(args: seq<string>, i: nat)
    requires i <= |args| && !IsFlagValue(args, i)
    ensures Kept(args[i..]) == StayingFrom(args, i)
    decreases |args| - i
  {
    if i < |args| {
      assert args[i..][1..] == args[i + 1..];
      if IsSafeFlag(args[i]) {
        if i + 1 < |args| {
          assert args[i..][2..] == args[i + 2..];
          SafeFlagIsNoAssignment(args[i]);
          KeptIsWhatStays(args, i + 2);
        }
      } else {
        KeptIsWhatStays(args, i + 1);
      }
    }
  }

  // ---- A shell reading the line --------------------------------------------------------------------------------------

  datatype Token = Word(text: string) | Operator(c: char)

  predicate IsOperatorChar(c: char)
  {
    c == '<' || c == '>' || c == '|' || c == '&' || c == ';' || c == '(' || c == ')' || c == '\n'
  }

  /** Characters that would start an expansion, a comment, a pattern or double quotes. */
  predicate IsExpansionChar(c: char)
  {
    c == '"' || c == '$' || c == '`' || c == '*' || c == '?' || c == '[' || c == '#' || c == '~' || c == '%'
  }

  function Flush(word: Option<string>): seq<Token>
  {
    if word.Some? then [Word(word.value)] else []
  }

  function Grown(word: Option<string>, text: string): Option<string>
  {
    Some(if word.Some? then word.value + text else text)
  }

  function After(first: seq<Token>, rest: Option<seq<Token>>): Option<seq<Token>>
  {
    if rest.None? then None else Some(first + rest.value)
  }

  /**
   Token recognition with quote removal by sections 2.2.1 (escape character), 2.2.2 (single quotes)
   and 2.3 of the POSIX Shell Command Language. `word` is the word being read, if any. Text that
   would be expanded, or that ends inside quotes, is rejected.
   */
  function Tokens(s: string, word: Option<string>): Option<seq<Token>>
    decreases |s|, 1
  {
    if s == [] then Some(Flush(word))
    else if s[0] == '\'' then InQuotes(s[1..], Grown(word, []))
    else if s[0] == '\\' then
      if |s| == 1 then None
      else if s[1] == '\n' then Tokens(s[2..], word)
      else Tokens(s[2..], Grown(word, [s[1]]))
    else if s[0] == ' ' || s[0] == '\t' then After(Flush(word), Tokens(s[1..], None))
    else if IsOperatorChar(s[0]) then After(Flush(word) + [Operator(s[0])], Tokens(s[1..], None))
    else if IsExpansionChar(s[0]) then None
    else Tokens(s[1..], Grown(word, [s[0]]))
  }

  function InQuotes(s: string, word: Option<string>): Option<seq<Token>>
    decreases |s|, 0
  {
    if s == [] then None
    else if s[0] == '\'' then Tokens(s[1..], word)
    else InQuotes(s[1..], Grown(word, [s[0]]))
  }

  // ---- The round trip ------------------------------------------------------------------------------------------------------

  lemma GrownTwice(word: Option<string>, a: string, b: string)
    ensures Grown(Grown(word, a), b) == Grown(word, a + b)
  {
    if word.Some? {
      assert word.value + a + b == word.value + (a + b);
    }
  }

  lemma {:induction false} PlainReadsBack(arg: string, rest: string, word: Option<string>)
    requires forall i :: 0 <= i < |arg| ==> IsPlainChar(arg[i])
    ensures arg != [] ==> Tokens(arg + rest, word) == Tokens(rest, Grown(word, arg))
  {
    if arg == [] {
    } else {
      assert (arg + rest)[1..] == arg[1..] + rest;
      var first := Grown(word, [arg[0]]);
      PlainReadsBack(arg[1..], rest, first);
      assert Tokens(arg + rest, word) == Tokens(arg[1..] + rest, first);
      hide Tokens, Grown, IsPlainChar;
      assert [arg[0]] + arg[1..] == arg;
      if |arg| == 1 {
        assert arg[1..] + rest == rest && arg == [arg[0]];
      } else {
        GrownTwice(word, [arg[0]], arg[1..]);
      }
    }
  }

  /** Closing, an escaped quote and opening again adds one quote to the word. */
  lemma EscapedQuote(tail: string, word: string)
    ensures InQuotes("'\\''" + tail, Some(word)) == InQuotes(tail, Some(word + "'"))
  {
    var s := "'\\''" + tail;
    assert s[1..] == "\\''" + tail;
    assert s[1..][2..] == "'" + tail;
    assert s[1..][2..][1..] == tail;
    assert InQuotes(s, Some(word)) == Tokens(s[1..], Some(word));
    assert Tokens(s[1..], Some(word)) == Tokens(s[1..][2..], Some(word + "'"));
    assert word + "'" + [] == word + "'";
  }

  lemma {:induction false} QuotedReadsBack(arg: string, rest: string, word: string)
    ensures InQuotes(ReplaceQuotes(arg) + ("'" + rest), Some(word)) == Tokens(rest, Some(word + arg))
  {
    hide Tokens;
    var s := ReplaceQuotes(arg) + ("'" + rest);
    if arg == [] {
      assert s == "'" + rest && s[1..] == rest && word + arg == word;
    } else {
      var tail := ReplaceQuotes(arg[1..]) + ("'" + rest);
      QuotedReadsBack(arg[1..], rest, word + [arg[0]]);
      assert word + [arg[0]] + arg[1..] == word + arg;
      if arg[0] == '\'' {
        assert s == "'\\''" + tail;
        EscapedQuote(tail, word);
      } else {
        assert s == [arg[0]] + tail && s[1..] == tail;
      }
    }
  }

  lemma OpensQuotes(body: string, rest: string)
    ensures Tokens("'" + body + "'" + rest, None) == InQuotes(body + ("'" + rest), Some([]))
  {
    hide InQuotes;
    var s := "'" + body + "'" + rest;
    assert s[0] == '\'' && s[1..] == body + ("'" + rest);
  }

  /** A quoted argument is read as one word, whatever characters it has. */
  lemma ArgumentReadsBack(arg: string, rest: string)
    ensures Tokens(ShellQuote(arg) + rest, None) == Tokens(rest, Some(arg))
  {
    hide InQuotes, Tokens, ReplaceQuotes;
    if IsPlain(arg) {
      PlainReadsBack(arg, rest, None);
    } else {
      OpensQuotes(ReplaceQuotes(arg), rest);
      QuotedReadsBack(arg, rest, []);
      assert [] + arg == arg;
    }
  }

  function Words(args: seq<string>): (tokens: seq<Token>)
    ensures |tokens| == |args| && forall i :: 0 <= i < |args| ==> tokens[i] == Word(args[i])
  {
    seq(|args|, i requires 0 <= i < |args| => Word(args[i]))
  }

  const TRAILER := [Word("--creation-tx"), Operator('<'), Word("EXECUTION_TX_HASH"), Operator('>')]

  lemma ClosingReadsBack(word: string)
    ensures Tokens(">", Some(word)) == Some([Word(word), Operator('>')])
  {
    assert ">"[1..] == [];
    assert Tokens([], None) == Some([]);
    assert [Word(word)] + [Operator('>')] + [] == [Word(word), Operator('>')];
  }

  lemma BracketedReadsBack(word: string)
    requires IsPlain(word)
    ensures Tokens("<" + (word + ">"), None) == Some([Operator('<'), Word(word), Operator('>')])
  {
    var s := "<" + (word + ">");
    assert s[1..] == word + ">";
    PlainReadsBack(word, ">", None);
    ClosingReadsBack(word);
    assert [] + [Operator('<')] + [Word(word), Operator('>')] == [Operator('<'), Word(word), Operator('>')];
  }

  lemma SpaceReadsBack(rest: string, word: Option<string>)
    ensures Tokens(" " + rest, word) == After(Flush(word), Tokens(rest, None))
  {
  }

  lemma SuffixReadsBack(flag: string, word: string)
    requires IsPlain(flag) && IsPlain(word)
    ensures Tokens(flag + " <" + word + ">", None) == Some([Word(flag), Operator('<'), Word(word), Operator('>')])
  {
    var rest := "<" + (word + ">");
    assert flag + " <" + word + ">" == flag + (" " + rest);
    PlainReadsBack(flag, " " + rest, None);
    SpaceReadsBack(rest, Some(flag));
    BracketedReadsBack(word);
    assert [Word(flag)] + [Operator('<'), Word(word), Operator('>')] == [Word(flag), Operator('<'), Word(word), Operator('>')];
  }

  lemma TrailerReadsBack()
    ensures Tokens(CREATION_SUFFIX, None) == Some(TRAILER)
  {
    hide Tokens;
    SuffixReadsBack(CREATION_TX, PLACEHOLDER);
  }

  /**
   Round trip. A shell splits the printed line into exactly the kept arguments, unchanged, then the
   `--creation-tx` flag and the placeholder between its two redirection characters.
   */
  lemma {:induction false} LineReadsBack(args: seq<string>)
    ensures Tokens(Joined(Quoted(args) + [CREATION_SUFFIX]), None) == Some(Words(args) + TRAILER)
  {
    hide Tokens, ShellQuote;
    var trailer := CREATION_SUFFIX;
    var words := Quoted(args) + [trailer];
    TrailerReadsBack();
    if args == [] {
      assert words == [trailer] && Words(args) + TRAILER == TRAILER;
    } else {
      var rest := Quoted(args[1..]) + [trailer];
      assert words[1..] == rest && words[0] == ShellQuote(args[0]);
      var line := Joined(rest);
      assert Joined(words) == ShellQuote(args[0]) + (" " + line);
      ArgumentReadsBack(args[0], " " + line);
      SpaceReadsBack(line, Some(args[0]));
      LineReadsBack(args[1..]);
      assert [Word(args[0])] + (Words(args[1..]) + TRAILER) == Words(args) + TRAILER;
    }
  }

  /** The printed command recovers the original arguments minus the Safe flags and their values. */
  lemma FinishCommandRoundTrip(args: seq<string>)
    ensures Tokens(Joined(Quoted(Kept(args)) + [CREATION_SUFFIX]), None)
         == Some(Words(StayingFrom(args, 0)) + TRAILER)
  {
    LineReadsBack(Kept(args));
    KeptIsWhatStays(args, 0);
    assert args[0..] == args;
  }
}
