/** The commands of a comment: an ordered-choice grammar over its lines. */
module CommentParsing {
  import opened Wrappers
  import opened Ascii
  import opened TextLines

  datatype Subset = Nixpkgs | NixOS

  datatype Instruction = Build(subset: Subset, attrs: seq<string>) | Eval

  const BOT := "@grahamcofborg"
  const SHORT := "@ofborg"

  /** The white space skipped between the parts of a line. */
  predicate IsBlank(c: char) {
    c == ' ' || c == '\t' || c == '\r' || c == '\n'
  }

  predicate IsGraphic(c: char) {
    '!' <= c <= '~'
  }

  function SkipBlanks(text: string): (rest: string)
    ensures |rest| <= |text|
    ensures rest != "" ==> !IsBlank(rest[0])
  {
    if text != "" && IsBlank(text[0]) then SkipBlanks(text[1..]) else text
  }

  /** `tag!` */
  predicate Starts(text: string, word: string) {
    |word| <= |text| && text[..|word|] == word
  }

  /** `tag_no_case!`, of a word in lower case. */
  predicate StartsNoCase(text: string, word: string) {
    |word| <= |text| && Lower(text[..|word|]) == word
  }

  function TokenEnd(text: string): (k: nat)
    ensures k <= |text|
  {
    if text == "" || !IsGraphic(text[0]) then 0 else TokenEnd(text[1..]) + 1
  }

  predicate IsToken(token: string) {
    token != "" && (forall i :: 0 <= i < |token| ==> IsGraphic(token[i])) && Lower(token) != BOT
  }

  /** As many tokens as there are, skipping white space; also what is left. */
  function Tokens(text: string): (r: (seq<string>, string))
    ensures |r.1| <= |text|
    decreases |text|
  {
    var start := SkipBlanks(text);
    var k := TokenEnd(start);
    if k == 0 || Lower(start[..k]) == BOT then ([], start)
    else
      var more := Tokens(start[k..]);
      ([start[..k]] + more.0, more.1)
  }

  /** What follows the next mention of the bot, which an unknown command runs up to. */
  function AfterNextBot(text: string): (rest: Option<string>)
    ensures rest.Some? ==> |rest.value| <= |text|
  {
    if StartsNoCase(text, BOT) then Some(text[|BOT|..])
    else if text == "" then None
    else AfterNextBot(text[1..])
  }

  const TESTS := "tests."

  function UnderTests(tokens: seq<string>): (attrs: seq<string>)
    ensures |attrs| == |tokens|
    ensures forall i :: 0 <= i < |tokens| ==> attrs[i] == TESTS + tokens[i]
  {
    seq(|tokens|, i requires 0 <= i < |tokens| => TESTS + tokens[i])
  }

  /** The choice after a mention of the bot; an unknown command is no instruction. */
  function Command(text: string): (r: Option<(Option<Instruction>, string)>)
    ensures r.Some? ==> |r.value.1| <= |text|
  {
    if Starts(text, "build") && Tokens(text[5..]).0 != [] then
      Some((Some(Build(Nixpkgs, Tokens(text[5..]).0)), Tokens(text[5..]).1))
    else if Starts(text, "test") && Tokens(text[4..]).0 != [] then
      Some((Some(Build(NixOS, UnderTests(Tokens(text[4..]).0))), Tokens(text[4..]).1))
    else if Starts(text, "eval") then
      Some((Some(Eval), text[4..]))
    else
      var rest := AfterNextBot(text);
      if rest.Some? then Some((None, rest.value)) else None
  }

  function Item(text: string): (r: Option<(Option<Instruction>, string)>)
    ensures r.Some? ==> |r.value.1| < |text|
  {
    var start := SkipBlanks(text);
    if StartsNoCase(start, BOT) then Command(SkipBlanks(start[|BOT|..]))
    else if StartsNoCase(start, SHORT) then Command(SkipBlanks(start[|SHORT|..]))
    else None
  }

  /** As many items as there are, and what is left. */
  function Items(text: string): (seq<Option<Instruction>>, string)
    decreases |text|
  {
    var item := Item(text);
    if item.None? then ([], SkipBlanks(text))
    else
      var more := Items(item.value.1);
      ([item.value.0] + more.0, more.1)
  }

  function Known(items: seq<Option<Instruction>>): seq<Instruction> {
    if items == [] then []
    else (if items[0].Some? then [items[0].value] else []) + Known(items[1..])
  }

  /** A line is items and nothing else, or it is ignored. */
  function ParseLine(line: string): Option<seq<Instruction>> {
    var parsed := Items(line);
    if parsed.0 != [] && parsed.1 == "" then Some(Known(parsed.0)) else None
  }

  /** What a line contributes: nothing if it does not parse. */
  function OfLine(line: string): seq<Instruction> {
    var parsed := ParseLine(line);
    if parsed.Some? then parsed.value else []
  }

  function Instructions(lines: seq<string>): seq<Instruction> {
    if lines == [] then [] else OfLine(lines[0]) + Instructions(lines[1..])
  }

  /** The instructions of every line, in order. */
  function Commands(text: string): seq<Instruction> {
    Instructions(SplitLines(text, true))
  }

  function Parse(text: string): Option<seq<Instruction>> {
    var instructions := Commands(text);
    if instructions == [] then None else Some(instructions)
  }

  // Printing instructions as a comment.

  ghost predicate Wellformed(instruction: Instruction) {
    match instruction
    case Eval => true
    case Build(Nixpkgs, attrs) => attrs != [] && AllTokens(attrs)
    case Build(NixOS, attrs) =>
      attrs != [] && AllUnderTests(attrs) && AllTokens(WithoutTests(attrs))
  }

  ghost predicate AllWellformed(instructions: seq<Instruction>) {
    forall i :: 0 <= i < |instructions| ==> Wellformed(instructions[i])
  }

  predicate AllUnderTests(attrs: seq<string>) {
    forall i :: 0 <= i < |attrs| ==> Starts(attrs[i], TESTS)
  }

  function WithoutTests(attrs: seq<string>): (tokens: seq<string>)
    requires AllUnderTests(attrs)
    ensures |tokens| == |attrs|
  {
    seq(|attrs|, i requires 0 <= i < |attrs| => attrs[i][|TESTS|..])
  }

  function PrintTokens(tokens: seq<string>): string {
    if tokens == [] then "" else " " + tokens[0] + PrintTokens(tokens[1..])
  }

  ghost function CommandText(instruction: Instruction): string
    requires Wellformed(instruction)
  {
    match instruction
    case Eval => "eval"
    case Build(Nixpkgs, attrs) => "build" + PrintTokens(attrs)
    case Build(NixOS, attrs) => "test" + PrintTokens(WithoutTests(attrs))
  }

  lemma SkipOneBlank(text: string)
    requires text != "" && !IsBlank(text[0])
    ensures SkipBlanks(" " + text) == text
  {
    assert (" " + text)[1..] == text;
  }

  lemma {:induction false} TokenEndOf(token: string, rest: string)
    requires forall i :: 0 <= i < |token| ==> IsGraphic(token[i])
    requires rest == "" || !IsGraphic(rest[0])
    ensures TokenEnd(token + rest) == |token|
  {
    if token == "" {
      assert token + rest == rest;
    } else {
      assert (token + rest)[1..] == token[1..] + rest;
      TokenEndOf(token[1..], rest);
    }
  }

  /** One token, after a blank, then whatever cannot continue it. */
  lemma NextToken(token: string, rest: string)
    requires token != "" && forall i :: 0 <= i < |token| ==> IsGraphic(token[i])
    requires rest == "" || !IsGraphic(rest[0])
    ensures SkipBlanks(" " + token + rest) == token + rest
    ensures TokenEnd(token + rest) == |token|
    ensures (token + rest)[..|token|] == token && (token + rest)[|token|..] == rest
  {
    assert (token + rest)[0] == token[0];
    assert " " + token + rest == " " + (token + rest);
    SkipOneBlank(token + rest);
    TokenEndOf(token, rest);
  }

  /** A spelling of either of the bot's names, in any case. */
  predicate IsMention(name: string) {
    Lower(name) == BOT || Lower(name) == SHORT
  }

  lemma MentionIsAWord(name: string)
    requires IsMention(name)
    ensures name != "" && !IsBlank(name[0]) && forall i :: 0 <= i < |name| ==> IsGraphic(name[i])
    ensures Lower(name) == SHORT ==> IsToken(name)
  {
    assert forall i :: 0 <= i < |name| ==> IsGraphic(Lower(name)[i]);
    assert Lower(name)[0] == '@';
    assert |BOT| != |SHORT|;
  }

  /** What can follow a token. */
  predicate EndsWord(rest: string) {
    rest == "" || rest[0] == ' '
  }

  /** The full name, in any case, is no token. */
  lemma TokensStop(name: string, rest: string)
    requires Lower(name) == BOT && EndsWord(rest)
    ensures Tokens(" " + name + rest) == ([], name + rest)
  {
    MentionIsAWord(name);
    NextToken(name, rest);
  }

  ghost predicate AllTokens(tokens: seq<string>) {
    forall i :: 0 <= i < |tokens| ==> IsToken(tokens[i])
  }

  lemma PrintedHead(tokens: seq<string>, rest: string)
    requires tokens != []
    ensures PrintTokens(tokens) + rest == " " + tokens[0] + (PrintTokens(tokens[1..]) + rest)
    ensures EndsWord(PrintTokens(tokens) + rest)
  {
    Associate(" " + tokens[0], PrintTokens(tokens[1..]), rest);
  }

  lemma OneMoreToken(token: string, after: string)
    requires IsToken(token) && EndsWord(after)
    ensures Tokens(" " + token + after) == ([token] + Tokens(after).0, Tokens(after).1)
  {
    NextToken(token, after);
  }

  lemma FirstAndRest(tokens: seq<string>, more: seq<string>)
    requires tokens != []
    ensures [tokens[0]] + (tokens[1..] + more) == tokens + more
  {
  }

  /** Printed tokens are read, and then whatever tokens follow. */
  lemma {:induction false} TokensThrough(tokens: seq<string>, rest: string)
    requires AllTokens(tokens) && EndsWord(rest)
    ensures Tokens(PrintTokens(tokens) + rest) == (tokens + Tokens(rest).0, Tokens(rest).1)
    ensures EndsWord(PrintTokens(tokens) + rest)
  {
    if tokens == [] {
      assert PrintTokens(tokens) + rest == rest && tokens + Tokens(rest).0 == Tokens(rest).0;
    } else {
      TokensThrough(tokens[1..], rest);
      PrintedHead(tokens, rest);
      OneMoreToken(tokens[0], PrintTokens(tokens[1..]) + rest);
      FirstAndRest(tokens, Tokens(rest).0);
    }
  }

  lemma OtherStart(text: string, word: string)
    requires text != "" && word != "" && text[0] != word[0]
    ensures !Starts(text, word)
  {
  }

  lemma Prefix(word: string, rest: string)
    ensures Starts(word + rest, word) && (word + rest)[|word|..] == rest
  {
  }

  lemma EvalOfText(rest: string)
    ensures Command("eval" + rest) == Some((Some(Eval), rest))
  {
    Prefix("eval", rest);
    OtherStart("eval" + rest, "build");
    OtherStart("eval" + rest, "test");
  }

  lemma BuildOfText(args: string, tokens: seq<string>, rest: string)
    requires Tokens(args) == (tokens, rest) && tokens != []
    ensures Command("build" + args) == Some((Some(Build(Nixpkgs, tokens)), rest))
  {
    Prefix("build", args);
  }

  lemma TestOfText(args: string, tokens: seq<string>, rest: string)
    requires Tokens(args) == (tokens, rest) && tokens != []
    ensures Command("test" + args) == Some((Some(Build(NixOS, UnderTests(tokens))), rest))
  {
    Prefix("test", args);
    OtherStart("test" + args, "build");
  }

  lemma BuildCommand(attrs: seq<string>, rest: string)
    requires attrs != [] && AllTokens(attrs) && EndsWord(rest)
    ensures Command("build" + PrintTokens(attrs) + rest)
         == Some((Some(Build(Nixpkgs, attrs + Tokens(rest).0)), Tokens(rest).1))
  {
    TokensThrough(attrs, rest);
    BuildOfText(PrintTokens(attrs) + rest, attrs + Tokens(rest).0, Tokens(rest).1);
    Associate("build", PrintTokens(attrs), rest);
  }

  lemma TestCommand(tokens: seq<string>, rest: string)
    requires tokens != [] && AllTokens(tokens) && EndsWord(rest)
    ensures Command("test" + PrintTokens(tokens) + rest)
         == Some((Some(Build(NixOS, UnderTests(tokens + Tokens(rest).0))), Tokens(rest).1))
  {
    TokensThrough(tokens, rest);
    TestOfText(PrintTokens(tokens) + rest, tokens + Tokens(rest).0, Tokens(rest).1);
    Associate("test", PrintTokens(tokens), rest);
  }

  lemma Associate(a: string, b: string, c: string)
    ensures a + b + c == a + (b + c)
  {
  }

  /** A build that also takes the words that follow it; an evaluation takes none. */
  function WithWords(instruction: Instruction, words: seq<string>): Instruction {
    match instruction
    case Eval => Eval
    case Build(Nixpkgs, attrs) => Build(Nixpkgs, attrs + words)
    case Build(NixOS, attrs) => Build(NixOS, attrs + UnderTests(words))
  }

  lemma CommandOfText(instruction: Instruction, rest: string)
    requires Wellformed(instruction) && EndsWord(rest)
    ensures Command(CommandText(instruction) + rest)
         == Some((Some(WithWords(instruction, Tokens(rest).0)), if instruction.Eval? then rest else Tokens(rest).1))
  {
    match instruction
    case Eval => EvalOfText(rest);
    case Build(Nixpkgs, attrs) => BuildCommand(attrs, rest);
    case Build(NixOS, attrs) =>
      TestCommand(WithoutTests(attrs), rest);
      TestsRestored(attrs, Tokens(rest).0);
  }

  lemma TestsRestored(attrs: seq<string>, words: seq<string>)
    requires AllUnderTests(attrs)
    ensures UnderTests(WithoutTests(attrs) + words) == attrs + UnderTests(words)
  {
    assert forall i :: 0 <= i < |attrs| ==> TESTS + attrs[i][|TESTS|..] == attrs[i];
  }

  /** Blanks in front change nothing. */
  lemma ItemsSkipBlanks(a: string, b: string)
    requires SkipBlanks(a) == SkipBlanks(b)
    ensures Items(a) == Items(b)
  {
    assert Item(a) == Item(b);
  }

  /** An instruction, and the name the bot is called by. */
  datatype Request = Request(name: string, instruction: Instruction) {
    predicate Short() { Lower(name) == SHORT }
  }

  ghost predicate AllRequests(requests: seq<Request>) {
    forall i :: 0 <= i < |requests| ==> IsMention(requests[i].name) && Wellformed(requests[i].instruction)
  }

  ghost function RequestText(request: Request): string
    requires Wellformed(request.instruction)
  {
    request.name + " " + CommandText(request.instruction)
  }

  ghost function RequestTexts(requests: seq<Request>): (texts: seq<string>)
    requires AllRequests(requests)
    ensures |texts| == |requests|
    ensures forall i :: 0 <= i < |texts| ==> texts[i] == RequestText(requests[i])
  {
    if requests == [] then [] else [RequestText(requests[0])] + RequestTexts(requests[1..])
  }

  /** The requests on one line, each with a blank in front. */
  ghost function PrintRequests(requests: seq<Request>): string
    requires AllRequests(requests)
  {
    if requests == [] then "" else " " + RequestText(requests[0]) + PrintRequests(requests[1..])
  }

  function Requested(requests: seq<Request>): (instructions: seq<Instruction>)
    ensures |instructions| == |requests|
    ensures forall i :: 0 <= i < |requests| ==> instructions[i] == requests[i].instruction
  {
    if requests == [] then [] else [requests[0].instruction] + Requested(requests[1..])
  }

  ghost function CommandWords(instruction: Instruction): seq<string>
    requires Wellformed(instruction)
  {
    match instruction
    case Eval => ["eval"]
    case Build(Nixpkgs, attrs) => ["build"] + attrs
    case Build(NixOS, attrs) => ["test"] + WithoutTests(attrs)
  }

  /** How many requests at the start use the short name. */
  function ShortOnes(requests: seq<Request>): (k: nat)
    ensures k <= |requests|
  {
    if requests == [] || !requests[0].Short() then 0 else ShortOnes(requests[1..]) + 1
  }

  /** The words of the requests at the start that use the short name. */
  ghost function ShortWords(requests: seq<Request>): seq<string>
    requires AllRequests(requests)
  {
    if requests == [] || !requests[0].Short() then []
    else [requests[0].name] + CommandWords(requests[0].instruction) + ShortWords(requests[1..])
  }

  /** What a line of requests asks for: a build takes all words up to the next full name. */
  ghost function Heard(requests: seq<Request>): seq<Instruction>
    requires AllRequests(requests)
    decreases |requests|
  {
    if requests == [] then []
    else
      var first, more := requests[0].instruction, requests[1..];
      if first.Eval? then [Eval] + Heard(more)
      else [WithWords(first, ShortWords(more))] + Heard(more[ShortOnes(more)..])
  }

  /** No request that uses the short name comes right after a build. */
  predicate ReadsBack(requests: seq<Request>) {
    forall i :: 1 <= i < |requests| ==> requests[i].Short() ==> requests[i - 1].instruction.Eval?
  }

  lemma ItemOfText(name: string, command: string, rest: string)
    requires IsMention(name) && command != "" && !IsBlank(command[0])
    ensures Item(" " + (name + " " + command) + rest) == Command(command + rest)
  {
    var tail := command + rest;
    assert tail[0] == command[0];
    MentionIsAWord(name);
    var start := name + (" " + tail);
    Regroup(name, command, rest);
    assert start[0] == name[0];
    SkipOneBlank(start);
    MentionStarts(name, " " + tail);
    SkipOneBlank(tail);
  }

  lemma Regroup(name: string, command: string, rest: string)
    ensures " " + (name + " " + command) + rest == " " + (name + (" " + (command + rest)))
  {
  }

  lemma MentionStarts(name: string, rest: string)
    requires IsMention(name)
    ensures Lower(name) == BOT ==> StartsNoCase(name + rest, BOT) && (name + rest)[|BOT|..] == rest
    ensures Lower(name) == SHORT ==>
              !StartsNoCase(name + rest, BOT) && StartsNoCase(name + rest, SHORT) && (name + rest)[|SHORT|..] == rest
  {
    assert (name + rest)[..|name|] == name && (name + rest)[|name|..] == rest;
    if Lower(name) == SHORT && |BOT| <= |name + rest| {
      assert Lower((name + rest)[..|BOT|])[1] == Lower(name)[1] == 'o';
    }
  }

  lemma CommandTextStarts(instruction: Instruction)
    requires Wellformed(instruction)
    ensures CommandText(instruction) != "" && !IsBlank(CommandText(instruction)[0])
  {
  }

  lemma PrintedRequestsEndWord(requests: seq<Request>)
    requires AllRequests(requests)
    ensures EndsWord(PrintRequests(requests))
  {
  }

  lemma KeywordsAreTokens()
    ensures IsToken("eval") && IsToken("build") && IsToken("test")
  {
    assert |Lower("eval")| != |BOT| && |Lower("build")| != |BOT| && |Lower("test")| != |BOT|;
  }

  lemma PrintedWords(word: string, tokens: seq<string>)
    requires IsToken(word) && AllTokens(tokens)
    ensures AllTokens([word] + tokens) && PrintTokens([word] + tokens) == " " + word + PrintTokens(tokens)
  {
    assert ([word] + tokens)[1..] == tokens;
  }

  lemma CommandWordsAreTokens(instruction: Instruction)
    requires Wellformed(instruction)
    ensures AllTokens(CommandWords(instruction))
    ensures " " + CommandText(instruction) == PrintTokens(CommandWords(instruction))
  {
    KeywordsAreTokens();
    match instruction
    case Eval =>
      PrintedWords("eval", []);
      assert ["eval"] + [] == ["eval"] && PrintTokens([]) == "" && " " + "eval" + "" == " " + "eval";
    case Build(Nixpkgs, attrs) =>
      PrintedWords("build", attrs);
      Associate(" ", "build", PrintTokens(attrs));
    case Build(NixOS, attrs) =>
      PrintedWords("test", WithoutTests(attrs));
      Associate(" ", "test", PrintTokens(WithoutTests(attrs)));
  }

  /** A request that uses the short name is nothing but tokens. */
  lemma ShortRequestIsTokens(request: Request, rest: string)
    requires IsMention(request.name) && request.Short() && Wellformed(request.instruction) && EndsWord(rest)
    ensures var words := [request.name] + CommandWords(request.instruction);
            Tokens(" " + RequestText(request) + rest) == (words + Tokens(rest).0, Tokens(rest).1)
  {
    var words := [request.name] + CommandWords(request.instruction);
    MentionIsAWord(request.name);
    CommandWordsAreTokens(request.instruction);
    assert words[1..] == CommandWords(request.instruction);
    TokensThrough(words, rest);
    Associate(" " + request.name, " " + CommandText(request.instruction), "");
    assert " " + RequestText(request) == PrintTokens(words);
  }

  lemma {:induction false} TokensOfRequests(requests: seq<Request>)
    requires AllRequests(requests)
    ensures Tokens(PrintRequests(requests)).0 == ShortWords(requests)
    ensures SkipBlanks(Tokens(PrintRequests(requests)).1) == SkipBlanks(PrintRequests(requests[ShortOnes(requests)..]))
  {
    if requests != [] {
      var first, more := requests[0], requests[1..];
      PrintedRequestsEndWord(more);
      if first.Short() {
        TokensOfRequests(more);
        ShortRequestIsTokens(first, PrintRequests(more));
        assert requests[ShortOnes(requests)..] == more[ShortOnes(more)..];
      } else {
        FullNameStops(first, PrintRequests(more));
      }
    }
  }

  lemma FullNameStops(request: Request, rest: string)
    requires Lower(request.name) == BOT && Wellformed(request.instruction)
    ensures var text := " " + RequestText(request) + rest;
            Tokens(text).0 == [] && SkipBlanks(Tokens(text).1) == SkipBlanks(text)
  {
    NameStops(request.name, CommandText(request.instruction), rest);
  }

  lemma NameStops(name: string, command: string, rest: string)
    requires Lower(name) == BOT
    ensures var text := " " + (name + " " + command) + rest;
            Tokens(text).0 == [] && SkipBlanks(Tokens(text).1) == SkipBlanks(text)
  {
    var after := " " + (command + rest);
    MentionIsAWord(name);
    TokensStop(name, after);
    assert (name + after)[0] == name[0];
    SkipOneBlank(name + after);
    Associate(" ", name, after);
    Regroup(name, command, rest);
  }

  function AsItems(instructions: seq<Instruction>): seq<Option<Instruction>> {
    if instructions == [] then [] else [Some(instructions[0])] + AsItems(instructions[1..])
  }

  lemma {:induction false} KnownOfItems(instructions: seq<Instruction>)
    ensures Known(AsItems(instructions)) == instructions
  {
    if instructions != [] {
      KnownOfItems(instructions[1..]);
    }
  }

  lemma {:induction false} ItemsOfRequests(requests: seq<Request>)
    requires AllRequests(requests)
    ensures Items(PrintRequests(requests)) == (AsItems(Heard(requests)), "")
    decreases |requests|
  {
    if requests != [] {
      var first, more := requests[0], requests[1..];
      var rest := PrintRequests(more);
      var later := if first.instruction.Eval? then more else more[ShortOnes(more)..];
      PrintedRequestsEndWord(more);
      CommandOfText(first.instruction, rest);
      CommandTextStarts(first.instruction);
      ItemOfText(first.name, CommandText(first.instruction), rest);
      TokensOfRequests(more);
      ItemsSkipBlanks(if first.instruction.Eval? then rest else Tokens(rest).1, PrintRequests(later));
      ItemsOfRequests(later);
    }
  }

  /** Every build that is followed by the short name loses at least one request. */
  lemma {:induction false} HeardIff(requests: seq<Request>)
    requires AllRequests(requests)
    ensures |Heard(requests)| <= |requests|
    ensures if ReadsBack(requests) then Heard(requests) == Requested(requests) else |Heard(requests)| < |requests|
    decreases |requests|
  {
    if requests != [] {
      var first, more := requests[0], requests[1..];
      ReadsBackTail(requests);
      if first.instruction.Eval? || ShortOnes(more) == 0 {
        HeardIff(more);
        assert more[0..] == more;
        NoWords(first.instruction);
      } else {
        HeardIff(more[ShortOnes(more)..]);
      }
    }
  }

  lemma NoWords(instruction: Instruction)
    ensures WithWords(instruction, []) == instruction
  {
    if instruction.Build? {
      assert instruction.attrs + [] == instruction.attrs && UnderTests([]) == [];
    }
  }

  lemma ReadsBackTail(requests: seq<Request>)
    requires requests != []
    ensures ReadsBack(requests)
       <==> ReadsBack(requests[1..])
            && (requests[0].instruction.Build? ==> ShortOnes(requests[1..]) == 0)
  {
    var more := requests[1..];
    if more != [] {
      assert requests[1] == more[0] && requests[1 - 1] == requests[0];
    }
    if ReadsBack(requests) {
      forall i | 1 <= i < |more| && more[i].Short()
        ensures more[i - 1].instruction.Eval?
      {
        assert requests[i + 1] == more[i] && requests[i + 1 - 1] == more[i - 1];
      }
    }
    if ReadsBack(more) && (requests[0].instruction.Build? ==> ShortOnes(more) == 0) {
      forall i | 1 <= i < |requests| && requests[i].Short()
        ensures requests[i - 1].instruction.Eval?
      {
        if i > 1 {
          assert more[i - 1] == requests[i] && more[i - 1 - 1] == requests[i - 1];
        }
      }
    }
  }

  lemma {:induction false} PrintedRequestsAreJoined(requests: seq<Request>)
    requires AllRequests(requests) && requests != []
    ensures PrintRequests(requests) == " " + Join(RequestTexts(requests), " ")
  {
    var texts := RequestTexts(requests);
    assert texts[1..] == RequestTexts(requests[1..]);
    if |requests| == 1 {
      assert PrintRequests(requests[1..]) == "";
    } else {
      PrintedRequestsAreJoined(requests[1..]);
      Associate(" " + texts[0], " ", Join(texts[1..], " "));
      Associate(" ", texts[0], " " + Join(texts[1..], " "));
      Associate(texts[0], " ", Join(texts[1..], " "));
    }
  }

  /** What a line of requests is read as, whatever names it uses. */
  lemma ParseLineHears(requests: seq<Request>)
    requires AllRequests(requests) && requests != []
    ensures ParseLine(Join(RequestTexts(requests), " ")) == Some(Heard(requests))
  {
    var line := Join(RequestTexts(requests), " ");
    ItemsOfRequests(requests);
    PrintedRequestsAreJoined(requests);
    assert (" " + line)[1..] == line;
    ItemsSkipBlanks(" " + line, line);
    KnownOfItems(Heard(requests));
    assert Heard(requests) != [];
  }

  /** Instructions on one line are read back exactly when no short name comes right after a build. */
  lemma ParseLineUndoesPrintIff(requests: seq<Request>)
    requires AllRequests(requests) && requests != []
    ensures ParseLine(Join(RequestTexts(requests), " ")) == Some(Requested(requests)) <==> ReadsBack(requests)
  {
    ParseLineHears(requests);
    HeardIff(requests);
  }

  // Whole comments.

  lemma EmptyLineIsIgnored()
    ensures Instructions([""]) == []
  {
    assert Items("").0 == [];
    assert [""][1..] == [];
  }

  lemma LineCommands(line: string)
    requires NewlineFree(line)
    ensures Commands(line) == OfLine(StripCr(line))
  {
    EmptyLineIsIgnored();
    if line != "" {
      assert NewlineAt(line) == |line|;
      assert [StripCr(line)][1..] == [];
    }
  }

  lemma FirstLineCommands(line: string, rest: string)
    requires NewlineFree(line)
    ensures Commands(line + "\n" + rest) == Commands(line) + Commands(rest)
  {
    SplitOfLine(line, rest, true);
    LineCommands(line);
  }

  lemma CutAtLine(a: string, k: nat, b: string)
    requires k < |a| && a[k] == '\n'
    ensures a == a[..k] + "\n" + a[k + 1..]
    ensures a + "\n" + b == a[..k] + "\n" + (a[k + 1..] + "\n" + b)
  {
    var line, rest := a[..k], a[k + 1..];
    assert a == line + "\n" + rest;
    AssociateAll(line + "\n", rest, "\n", b);
  }

  lemma AssociateAll<T>(a: seq<T>, b: seq<T>, c: seq<T>, d: seq<T>)
    ensures a + b + c + d == a + (b + c + d)
    ensures a + b + c == a + (b + c)
  {
  }

  /** What a comment asks for is what its parts ask for, wherever it is cut at a line end. */
  lemma CommandsOfLines(a: string, b: string)
    ensures Commands(a + "\n" + b) == Commands(a) + Commands(b)
    decreases |a|
  {
    var k := NewlineAt(a);
    if k == |a| {
      assert a[..k] == a;
      FirstLineCommands(a, b);
    } else {
      var line, rest := a[..k], a[k + 1..];
      CutAtLine(a, k, b);
      FirstLineCommands(line, rest);
      FirstLineCommands(line, rest + "\n" + b);
      CommandsOfLines(rest, b);
      AssociateAll(Commands(line), Commands(rest), Commands(b), []);
    }
  }

  ghost predicate Plain(text: string) {
    forall i :: 0 <= i < |text| ==> text[i] == ' ' || IsGraphic(text[i])
  }

  lemma {:induction false} PrintedTokensArePlain(tokens: seq<string>)
    requires AllTokens(tokens)
    ensures Plain(PrintTokens(tokens))
  {
    if tokens != [] {
      assert IsToken(tokens[0]);
      PrintedTokensArePlain(tokens[1..]);
    }
  }

  lemma CommandTextIsPlain(instruction: Instruction)
    requires Wellformed(instruction)
    ensures Plain(CommandText(instruction))
  {
    match instruction
    case Eval =>
    case Build(Nixpkgs, attrs) => PrintedTokensArePlain(attrs);
    case Build(NixOS, attrs) => PrintedTokensArePlain(WithoutTests(attrs));
  }

  lemma RequestTextIsPlain(request: Request)
    requires IsMention(request.name) && Wellformed(request.instruction)
    ensures Plain(RequestText(request))
  {
    MentionIsAWord(request.name);
    CommandTextIsPlain(request.instruction);
  }

  lemma {:induction false} PrintedRequestsArePlain(requests: seq<Request>)
    requires AllRequests(requests)
    ensures Plain(PrintRequests(requests))
  {
    if requests != [] {
      RequestTextIsPlain(requests[0]);
      PrintedRequestsArePlain(requests[1..]);
    }
  }

  ghost predicate AllBlocks(blocks: seq<seq<Request>>) {
    forall i :: 0 <= i < |blocks| ==> blocks[i] != [] && AllRequests(blocks[i])
  }

  /** One line a block, the requests of a block side by side. */
  ghost function BlockLines(blocks: seq<seq<Request>>): (lines: seq<string>)
    requires AllBlocks(blocks)
    ensures |lines| == |blocks|
    ensures forall i :: 0 <= i < |lines| ==> lines[i] == Join(RequestTexts(blocks[i]), " ")
  {
    if blocks == [] then [] else [Join(RequestTexts(blocks[0]), " ")] + BlockLines(blocks[1..])
  }

  function Concat(blocks: seq<seq<Request>>): seq<Instruction> {
    if blocks == [] then [] else Requested(blocks[0]) + Concat(blocks[1..])
  }

  lemma BlockCommands(block: seq<Request>)
    requires AllRequests(block) && block != []
    ensures Commands(Join(RequestTexts(block), " ")) == Heard(block)
  {
    var line := Join(RequestTexts(block), " ");
    PrintedRequestsArePlain(block);
    PrintedRequestsAreJoined(block);
    assert forall i :: 0 <= i < |line| ==> line[i] == (" " + line)[i + 1];
    assert NewlineFree(line) && StripCr(line) == line;
    LineCommands(line);
    ParseLineHears(block);
  }

  ghost predicate AllReadBack(blocks: seq<seq<Request>>) {
    forall i :: 0 <= i < |blocks| ==> ReadsBack(blocks[i])
  }

  lemma AllReadBackIff(blocks: seq<seq<Request>>)
    requires blocks != []
    ensures AllReadBack(blocks) <==> ReadsBack(blocks[0]) && AllReadBack(blocks[1..])
  {
    if ReadsBack(blocks[0]) && AllReadBack(blocks[1..]) {
      forall i | 0 <= i < |blocks|
        ensures ReadsBack(blocks[i])
      {
        assert i > 0 ==> blocks[i] == blocks[1..][i - 1];
      }
    }
    if AllReadBack(blocks) {
      assert forall i :: 0 <= i < |blocks| - 1 ==> blocks[1..][i] == blocks[i + 1];
    }
  }

  lemma {:induction false} CommandsOfBlocks(blocks: seq<seq<Request>>)
    requires AllBlocks(blocks)
    ensures |Commands(Join(BlockLines(blocks), "\n"))| <= |Concat(blocks)|
    ensures if AllReadBack(blocks) then Commands(Join(BlockLines(blocks), "\n")) == Concat(blocks)
            else |Commands(Join(BlockLines(blocks), "\n"))| < |Concat(blocks)|
  {
    if blocks != [] {
      var lines := BlockLines(blocks);
      BlockCommands(blocks[0]);
      HeardIff(blocks[0]);
      if |blocks| > 1 {
        CommandsOfBlocks(blocks[1..]);
        assert lines[1..] == BlockLines(blocks[1..]);
        CommandsOfLines(lines[0], Join(lines[1..], "\n"));
        AllReadBackIff(blocks);
      } else {
        assert Concat(blocks[1..]) == [];
      }
    }
  }

  /**
   * However instructions are spread over lines, and whichever names the bot is
   * called by, the comment asks for exactly them, in order, if and only if no
   * short name comes right after a build on its line.
   */
  lemma ParseUndoesPrintIff(blocks: seq<seq<Request>>)
    requires AllBlocks(blocks) && blocks != []
    ensures Parse(Join(BlockLines(blocks), "\n")) == Some(Concat(blocks)) <==> AllReadBack(blocks)
  {
    CommandsOfBlocks(blocks);
    assert blocks[0] != [];
  }

  function Apart(requests: seq<Request>): (blocks: seq<seq<Request>>)
    ensures |blocks| == |requests|
    ensures forall i :: 0 <= i < |blocks| ==> blocks[i] == [requests[i]]
    ensures Concat(blocks) == Requested(requests)
  {
    if requests == [] then [] else [[requests[0]]] + Apart(requests[1..])
  }

  /** One a line, requests are read back whatever the names; */
  lemma OneALine(requests: seq<Request>)
    requires AllRequests(requests) && requests != []
    ensures Parse(Join(RequestTexts(requests), "\n")) == Some(Requested(requests))
  {
    ParseUndoesPrintIff(Apart(requests));
    LinesOfApart(requests);
  }

  lemma LinesOfApart(requests: seq<Request>)
    requires AllRequests(requests)
    ensures AllBlocks(Apart(requests)) && AllReadBack(Apart(requests))
    ensures BlockLines(Apart(requests)) == RequestTexts(requests)
  {
    var blocks := Apart(requests);
    forall i | 0 <= i < |requests|
      ensures blocks[i] == [requests[i]] && Join(RequestTexts([requests[i]]), " ") == RequestText(requests[i])
    {
    }
  }

  /** all on one line, only under the condition. */
  lemma AllOnOneLineIff(requests: seq<Request>)
    requires AllRequests(requests) && requests != []
    ensures Parse(Join(RequestTexts(requests), " ")) == Some(Requested(requests)) <==> ReadsBack(requests)
  {
    BlockCommands(requests);
    HeardIff(requests);
  }

  lemma NamesAreMentions()
    ensures Lower(BOT) == BOT && Lower(SHORT) == SHORT && BOT != SHORT
  {
    assert |BOT| != |SHORT|;
  }

  function Under(name: string, instructions: seq<Instruction>): (requests: seq<Request>)
    ensures |requests| == |instructions|
    ensures forall i :: 0 <= i < |requests| ==> requests[i] == Request(name, instructions[i])
  {
    seq(|instructions|, i requires 0 <= i < |instructions| => Request(name, instructions[i]))
  }

  predicate EvalsFirst(instructions: seq<Instruction>) {
    forall i :: 0 <= i < |instructions| - 1 ==> instructions[i].Eval?
  }

  lemma UnderReadsBackIff(name: string, instructions: seq<Instruction>)
    requires AllWellformed(instructions) && IsMention(name)
    ensures AllRequests(Under(name, instructions)) && Requested(Under(name, instructions)) == instructions
    ensures ReadsBack(Under(name, instructions))
       <==> Lower(name) == BOT || EvalsFirst(instructions)
  {
    NamesAreMentions();
    var requests := Under(name, instructions);
    if ReadsBack(requests) && Lower(name) == SHORT {
      forall i | 0 <= i < |instructions| - 1
        ensures instructions[i].Eval?
      {
        assert requests[i + 1].Short() && requests[i + 1 - 1] == requests[i];
      }
    }
  }

  ghost function TextsUnder(name: string, instructions: seq<Instruction>): seq<string>
    requires AllWellformed(instructions) && IsMention(name)
  {
    UnderReadsBackIff(name, instructions);
    RequestTexts(Under(name, instructions))
  }

  /**
   * Under one name throughout: one a line, the list comes back; all on one
   * line, with the full name always, with the short name only if no build but
   * the last instruction is among them.
   */
  lemma OneLineOrMany(name: string, instructions: seq<Instruction>)
    requires AllWellformed(instructions) && instructions != [] && IsMention(name)
    ensures Parse(Join(TextsUnder(name, instructions), "\n")) == Some(instructions)
    ensures Parse(Join(TextsUnder(name, instructions), " ")) == Some(instructions)
       <==> Lower(name) == BOT || EvalsFirst(instructions)
  {
    UnderReadsBackIff(name, instructions);
    OneALine(Under(name, instructions));
    AllOnOneLineIff(Under(name, instructions));
  }

  /** A line the short name spoils: after a build it is one more attribute, and so is the command. */
  lemma ShortNameAfterBuild(first: string)
    requires IsToken(first)
    ensures AllRequests([Request(BOT, Build(Nixpkgs, [first])), Request(SHORT, Eval)])
    ensures Parse(Join(RequestTexts([Request(BOT, Build(Nixpkgs, [first])), Request(SHORT, Eval)]), " "))
         == Some([Build(Nixpkgs, [first, SHORT, "eval"])])
  {
    var requests := [Request(BOT, Build(Nixpkgs, [first])), Request(SHORT, Eval)];
    NamesAreMentions();
    HeardAfterBuild(first);
    BlockCommands(requests);
  }

  lemma HeardAfterBuild(first: string)
    requires AllRequests([Request(BOT, Build(Nixpkgs, [first])), Request(SHORT, Eval)])
    ensures Heard([Request(BOT, Build(Nixpkgs, [first])), Request(SHORT, Eval)])
         == [Build(Nixpkgs, [first, SHORT, "eval"])]
  {
    var requests := [Request(BOT, Build(Nixpkgs, [first])), Request(SHORT, Eval)];
    var more := requests[1..];
    NamesAreMentions();
    assert more == [Request(SHORT, Eval)] && more[1..] == [];
    assert ShortOnes(more) == 1;
    assert ShortWords(more) == [SHORT, "eval"];
    assert [first] + [SHORT, "eval"] == [first, SHORT, "eval"];
    assert Heard(more[1..]) == [];
  }

  // What can come out of a comment at all.

  lemma {:induction false} GraphicUpTo(text: string)
    ensures forall i :: 0 <= i < TokenEnd(text) ==> IsGraphic(text[i])
  {
    if text != "" && IsGraphic(text[0]) {
      GraphicUpTo(text[1..]);
      assert forall i :: 1 <= i < TokenEnd(text) ==> text[i] == text[1..][i - 1];
    }
  }

  lemma TokensAreTokens(text: string)
    ensures AllTokens(Tokens(text).0)
    decreases |text|
  {
    var start := SkipBlanks(text);
    var k := TokenEnd(start);
    GraphicUpTo(start);
    if k != 0 && Lower(start[..k]) != BOT {
      TokensAreTokens(start[k..]);
      assert IsToken(start[..k]);
    }
  }

  lemma CommandIsWellformed(text: string)
    requires Command(text).Some? && Command(text).value.0.Some?
    ensures Wellformed(Command(text).value.0.value)
  {
    if Starts(text, "build") {
      TokensAreTokens(text[5..]);
    }
    if Starts(text, "test") {
      var tokens := Tokens(text[4..]).0;
      TokensAreTokens(text[4..]);
      TestsAreUnderTests(tokens);
    }
  }

  lemma TestsAreUnderTests(tokens: seq<string>)
    ensures AllUnderTests(UnderTests(tokens)) && WithoutTests(UnderTests(tokens)) == tokens
  {
    forall i | 0 <= i < |tokens|
      ensures Starts(UnderTests(tokens)[i], TESTS) && UnderTests(tokens)[i][|TESTS|..] == tokens[i]
    {
      Prefix(TESTS, tokens[i]);
    }
  }

  lemma {:induction false} ItemsAreWellformed(text: string)
    ensures AllWellformed(Known(Items(text).0))
    decreases |text|
  {
    var item := Item(text);
    if item.Some? {
      var start := SkipBlanks(text);
      if item.value.0.Some? {
        CommandIsWellformed(SkipBlanks(start[if StartsNoCase(start, BOT) then |BOT| else |SHORT|..]));
      }
      ItemsAreWellformed(item.value.1);
    }
  }

  lemma {:induction false} InstructionsAreWellformed(lines: seq<string>)
    ensures AllWellformed(Instructions(lines))
  {
    if lines != [] {
      ItemsAreWellformed(lines[0]);
      InstructionsAreWellformed(lines[1..]);
    }
  }

  /** Exactly the non-empty lists of well-formed instructions come out of some comment. */
  lemma ParsableIff(instructions: seq<Instruction>)
    ensures (exists text :: Parse(text) == Some(instructions)) <==> instructions != [] && AllWellformed(instructions)
  {
    if instructions != [] && AllWellformed(instructions) {
      NamesAreMentions();
      OneLineOrMany(BOT, instructions);
    }
    if text :| Parse(text) == Some(instructions) {
      InstructionsAreWellformed(SplitLines(text, true));
    }
  }
}
