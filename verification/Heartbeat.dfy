// The heartbeat compiler: Markdown directives to trigger candidates.
module Heartbeat {
  import opened Prelude
  import opened Text

  datatype Code =
    | CandidateLimitExceeded
    | UnsupportedDirective
    | InvalidIntervalSyntax
    | InvalidIntervalSeconds
    | IntervalOutOfBounds
    | InvalidCronSyntax
    | InvalidCronExpression
    | InvalidTimezone
    | MissingRecipe
    | InvalidOption
    | InvalidMaxInflight
    | MaxInflightOutOfBounds
    | InvalidJitter
    | JitterOutOfBounds
    | UnknownOption

  datatype Schedule = Interval(seconds: int) | Cron(expression: string, timezone: string)

  datatype Candidate = Candidate(schedule: Schedule, recipe: string, maxInflight: int, jitter: int,
                                 line: nat, sourceLine: string)
  datatype Issue = Issue(line: nat, code: Code)
  datatype Report = Report(candidates: seq<Candidate>, issues: seq<Issue>)

  // The cron and time zone libraries, as far as the compiler asks them.
  datatype Calendar = Calendar(validCron: string -> bool, validZone: string -> bool)

  const MAX_CANDIDATES: nat := 128

  // ---------------------------------------------------------------------------------------------
  // Tokens
  // ---------------------------------------------------------------------------------------------

  function Emit(current: string): seq<string>
  {
    if current == [] then [] else [current]
  }

  // The tokens of the rest of a line, after the given part of a token.
  function TokensFrom(rest: string, current: string, quoted: bool): seq<string>
    decreases |rest|
  {
    if rest == [] then Emit(current)
    else if rest[0] == '"' then TokensFrom(rest[1..], current, !quoted)
    else if IsWhitespace(rest[0]) && !quoted then Emit(current) + TokensFrom(rest[1..], [], quoted)
    else TokensFrom(rest[1..], current + [rest[0]], quoted)
  }

  function Tokens(line: string): seq<string>
  {
    TokensFrom(line, [], false)
  }

  /** tokenize_heartbeat_line */
  method Tokenize(line: string) returns (out: seq<string>)
    ensures out == Tokens(line)
  {
    out := [];
    var current, quoted := "", false;
    for i := 0 to |line|
      invariant out + TokensFrom(line[i..], current, quoted) == Tokens(line)
    {
      var c := line[i];
      assert line[i..][1..] == line[i + 1..];
      if c == '"' {
        quoted := !quoted;
      } else if IsWhitespace(c) && !quoted {
        if current != [] {
          out := out + [current];
          current := "";
        }
      } else {
        current := current + [c];
      }
    }
    if current != [] {
      out := out + [current];
    }
  }

  // The characters of a line that reach a token: no quote, and no white space outside quotes.
  function Visible(rest: string, quoted: bool): string
  {
    if rest == [] then []
    else if rest[0] == '"' then Visible(rest[1..], !quoted)
    else if IsWhitespace(rest[0]) && !quoted then Visible(rest[1..], quoted)
    else [rest[0]] + Visible(rest[1..], quoted)
  }

  function Joined(tokens: seq<string>): string
  {
    if tokens == [] then [] else tokens[0] + Joined(tokens[1..])
  }

  lemma {:induction false} JoinedEmit(current: string, more: seq<string>)
    ensures Joined(Emit(current) + more) == current + Joined(more)
  {
    assert current == [] ==> Emit(current) + more == more;
    assert current != [] ==> (Emit(current) + more)[0] == current && (Emit(current) + more)[1..] == more;
  }

  lemma {:induction false} TokensNotEmpty(rest: string, current: string, quoted: bool)
    ensures forall i :: 0 <= i < |TokensFrom(rest, current, quoted)| ==> TokensFrom(rest, current, quoted)[i] != []
    decreases |rest|
  {
    if rest != [] {
      if rest[0] == '"' {
        TokensNotEmpty(rest[1..], current, !quoted);
      } else if IsWhitespace(rest[0]) && !quoted {
        TokensNotEmpty(rest[1..], [], quoted);
      } else {
        TokensNotEmpty(rest[1..], current + [rest[0]], quoted);
      }
    }
  }

  lemma {:induction false} TokensJoined(rest: string, current: string, quoted: bool)
    ensures Joined(TokensFrom(rest, current, quoted)) == current + Visible(rest, quoted)
    decreases |rest|
  {
    hide Joined;
    if rest == [] {
      JoinedEmit(current, []);
      JoinedNothing();
      assert Emit(current) + [] == Emit(current);
    } else if rest[0] == '"' {
      TokensJoined(rest[1..], current, !quoted);
    } else if IsWhitespace(rest[0]) && !quoted {
      TokensJoined(rest[1..], [], quoted);
      JoinedEmit(current, TokensFrom(rest[1..], [], quoted));
    } else {
      TokensJoined(rest[1..], current + [rest[0]], quoted);
      assert current + [rest[0]] + Visible(rest[1..], quoted) == current + ([rest[0]] + Visible(rest[1..], quoted));
    }
  }

  lemma {:induction false} JoinedNothing()
    ensures Joined([]) == []
  {
  }

  /** The tokens are not empty and together hold exactly the visible characters, in order. */
  lemma {:induction false} TokensKeepText(line: string)
    ensures Joined(Tokens(line)) == Visible(line, false)
    ensures forall i :: 0 <= i < |Tokens(line)| ==> Tokens(line)[i] != []
  {
    TokensJoined(line, [], false);
    TokensNotEmpty(line, [], false);
  }

  // ---------------------------------------------------------------------------------------------
  // Options
  // ---------------------------------------------------------------------------------------------

  datatype Setting = Recipe(id: string) | Zone(name: string) | MaxInflight(runs: int) | Jitter(seconds: int)
  datatype Options = Options(recipe: Option<string>, zone: Option<string>, maxInflight: int, jitter: int)
  datatype Key = RecipeKey | ZoneKey | MaxInflightKey | JitterKey | UnknownKey

  const DEFAULTS: Options := Options(None, None, 1, 0)

  function KeyOf(key: string): Key
  {
    if key == "recipe" || key == "recipe_id" then RecipeKey
    else if key == "timezone" || key == "tz" then ZoneKey
    else if key == "max_inflight" || key == "max_inflight_runs" then MaxInflightKey
    else if key == "jitter" || key == "jitter_seconds" then JitterKey
    else UnknownKey
  }

  // Position of the first such character, or the length.
  function Find(s: string, c: char): (k: nat)
    ensures k <= |s| && c !in s[..k] && (k < |s| ==> s[k] == c)
  {
    if s == [] || s[0] == c then 0
    else
      var k := Find(s[1..], c);
      assert s[..k + 1] == [s[0]] + s[1..][..k];
      k + 1
  }

  function ParseI32(s: string): (r: Option<int>)
  {
    ParseInt(s, -0x8000_0000, 0x7FFF_FFFF)
  }

  function ParseI64(s: string): (r: Option<int>)
  {
    ParseInt(s, -0x8000_0000_0000_0000, 0x7FFF_FFFF_FFFF_FFFF)
  }

  function Bounded(parsed: Option<int>, lo: int, hi: int, unreadable: Code, outside: Code): (r: Result<int, Code>)
  {
    if parsed.None? then Err(unreadable)
    else if lo <= parsed.value <= hi then Ok(parsed.value)
    else Err(outside)
  }

  function SettingOfKey(key: Key, value: string): Result<Setting, Code>
  {
    match key
    case RecipeKey => Ok(Recipe(value))
    case ZoneKey => Ok(Zone(value))
    case MaxInflightKey =>
      (match Bounded(ParseI32(value), 1, 1000, InvalidMaxInflight, MaxInflightOutOfBounds)
       case Ok(n) => Ok(MaxInflight(n))
       case Err(code) => Err(code))
    case JitterKey =>
      (match Bounded(ParseI32(value), 0, 3600, InvalidJitter, JitterOutOfBounds)
       case Ok(n) => Ok(Jitter(n))
       case Err(code) => Err(code))
    case UnknownKey => Err(UnknownOption)
  }

  // What one option token sets.
  function SettingOf(token: string): Result<Setting, Code>
  {
    var k := Find(token, '=');
    if k == |token| then Err(InvalidOption)
    else
      var value := Trim(token[k + 1..]);
      if value == [] then Err(InvalidOption)
      else SettingOfKey(KeyOf(Lower(Trim(token[..k]))), value)
  }

  function Set(opts: Options, s: Setting): Options
  {
    match s
    case Recipe(id) => opts.(recipe := Some(id))
    case Zone(name) => opts.(zone := Some(name))
    case MaxInflight(runs) => opts.(maxInflight := runs)
    case Jitter(seconds) => opts.(jitter := seconds)
  }

  // The options after the first tokens, or the problem of the first bad one.
  function OptionsOf(tokens: seq<string>): Result<Options, Code>
  {
    if tokens == [] then Ok(DEFAULTS)
    else
      var before := OptionsOf(tokens[..|tokens| - 1]);
      if before.Err? then before
      else
        match SettingOf(tokens[|tokens| - 1])
        case Ok(s) => Ok(Set(before.value, s))
        case Err(code) => Err(code)
  }

  /** parse_heartbeat_options */
  method ParseOptions(tokens: seq<string>) returns (r: Result<Options, Code>)
    ensures r == OptionsOf(tokens)
  {
    var opts := DEFAULTS;
    for i := 0 to |tokens|
      invariant OptionsOf(tokens[..i]) == Ok(opts)
    {
      assert tokens[..i + 1][..i] == tokens[..i];
      var setting := SettingOf(tokens[i]);
      if setting.Err? {
        BadTokenDecides(tokens, i);
        return Err(setting.error);
      }
      opts := Set(opts, setting.value);
    }
    assert tokens[..|tokens|] == tokens;
    r := Ok(opts);
  }

  lemma {:induction false} BadTokenDecides(tokens: seq<string>, i: nat)
    requires i < |tokens|
    ensures OptionsOf(tokens[..i]).Ok? && SettingOf(tokens[i]).Err? ==>
              OptionsOf(tokens) == Err(SettingOf(tokens[i]).error)
  {
    hide SettingOf;
    var n := |tokens| - 1;
    if i < n {
      assert tokens[..n][..i] == tokens[..i];
      BadTokenDecides(tokens[..n], i);
    }
  }

  // The last token that sets this kind of option is token i.
  predicate LastOfKind(tokens: seq<string>, i: nat, s: Setting)
    requires i < |tokens|
  {
    SettingOf(tokens[i]) == Ok(s) && forall j :: i < j < |tokens| ==> !SetsSame(SettingOf(tokens[j]), s)
  }

  predicate SetsSame(r: Result<Setting, Code>, s: Setting)
  {
    r.Ok? && ((r.value.Recipe? && s.Recipe?) || (r.value.Zone? && s.Zone?) ||
              (r.value.MaxInflight? && s.MaxInflight?) || (r.value.Jitter? && s.Jitter?))
  }

  predicate Holds(opts: Options, s: Setting)
  {
    match s
    case Recipe(id) => opts.recipe == Some(id)
    case Zone(name) => opts.zone == Some(name)
    case MaxInflight(runs) => opts.maxInflight == runs
    case Jitter(seconds) => opts.jitter == seconds
  }

  /** Options are accepted exactly when each token is good by itself, and of several tokens for one option
      the last one counts. */
  lemma {:induction false} LastOptionWins(tokens: seq<string>)
    ensures OptionsOf(tokens).Ok? <==> forall i :: 0 <= i < |tokens| ==> SettingOf(tokens[i]).Ok?
    ensures OptionsOf(tokens).Ok? ==>
              forall i, s :: 0 <= i < |tokens| && LastOfKind(tokens, i, s) ==> Holds(OptionsOf(tokens).value, s)
  {
    hide SettingOf;
    if tokens != [] {
      var n := |tokens| - 1;
      var init := tokens[..n];
      LastOptionWins(init);
      assert forall i :: 0 <= i < n ==> SettingOf(init[i]) == SettingOf(tokens[i]);
      if OptionsOf(tokens).Ok? {
        forall i, s | 0 <= i < |tokens| && LastOfKind(tokens, i, s)
          ensures Holds(OptionsOf(tokens).value, s)
        {
          if i < n {
            assert init[i] == tokens[i];
            assert LastOfKind(init, i, s);
          }
        }
      }
    }
  }

  // ---------------------------------------------------------------------------------------------
  // Lines
  // ---------------------------------------------------------------------------------------------

  function ParseIntervalLine(tokens: seq<string>, line: nat, source: string): Result<Candidate, Code>
  {
    if |tokens| < 3 then Err(InvalidIntervalSyntax)
    else
      match Bounded(ParseI64(tokens[1]), 60, 31_536_000, InvalidIntervalSeconds, IntervalOutOfBounds)
      case Err(code) => Err(code)
      case Ok(seconds) =>
        match OptionsOf(tokens[2..])
        case Err(code) => Err(code)
        case Ok(opts) =>
          if opts.recipe.None? then Err(MissingRecipe)
          else Ok(Candidate(Interval(seconds), opts.recipe.value, opts.maxInflight, opts.jitter, line, source))
  }

  function ZoneName(opts: Options): string
  {
    if opts.zone.Some? then opts.zone.value else "UTC"
  }

  function ParseCronLine(cal: Calendar, tokens: seq<string>, line: nat, source: string): Result<Candidate, Code>
  {
    if |tokens| < 3 then Err(InvalidCronSyntax)
    else
      var expression := Trim(tokens[1]);
      if expression == [] || !cal.validCron(expression) then Err(InvalidCronExpression)
      else
        match OptionsOf(tokens[2..])
        case Err(code) => Err(code)
        case Ok(opts) =>
          if opts.recipe.None? then Err(MissingRecipe)
          else if !cal.validZone(ZoneName(opts)) then Err(InvalidTimezone)
          else Ok(Candidate(Cron(expression, ZoneName(opts)), opts.recipe.value, opts.maxInflight, opts.jitter, line, source))
  }

  datatype Directive = IntervalDirective | CronDirective | OtherDirective

  function DirectiveOf(token: string): Directive
  {
    var word := Lower(token);
    if word == "every" || word == "interval" then IntervalDirective
    else if word == "cron" then CronDirective
    else OtherDirective
  }

  function ParseLine(cal: Calendar, tokens: seq<string>, line: nat, source: string): Result<Candidate, Code>
    requires tokens != []
  {
    match DirectiveOf(tokens[0])
    case IntervalDirective => ParseIntervalLine(tokens, line, source)
    case CronDirective => ParseCronLine(cal, tokens, line, source)
    case OtherDirective => Err(UnsupportedDirective)
  }

  // The directive on a raw line; empty for blank lines and headings.
  function Normalized(raw: string): string
  {
    var t := Trim(raw);
    if t == [] || t[0] == '#' then []
    else if |t| >= 2 && (t[0] == '-' || t[0] == '*') && t[1] == ' ' then t[2..]
    else t
  }

  function WithoutReturn(s: string): string
  {
    if s != [] && s[|s| - 1] == '\r' then s[..|s| - 1] else s
  }

  // str::lines
  function Lines(s: string): (r: seq<string>)
    ensures forall i :: 0 <= i < |r| ==> '\n' !in r[i]
  {
    if s == [] then []
    else
      var k := Find(s, '\n');
      if k == |s| then
        assert s[..k] == s;
        [s]
      else [WithoutReturn(s[..k])] + Lines(s[k + 1..])
  }

  // ---------------------------------------------------------------------------------------------
  // The compiler
  // ---------------------------------------------------------------------------------------------

  datatype Progress = Progress(candidates: seq<Candidate>, issues: seq<Issue>, stopped: bool)

  function Next(cal: Calendar, p: Progress, source: string, line: nat): Progress
  {
    if p.stopped || source == [] then p
    else if |p.candidates| >= MAX_CANDIDATES then
      p.(issues := p.issues + [Issue(line, CandidateLimitExceeded)], stopped := true)
    else if Tokens(source) == [] then p
    else
      match ParseLine(cal, Tokens(source), line, source)
      case Ok(c) => p.(candidates := p.candidates + [c])
      case Err(code) => p.(issues := p.issues + [Issue(line, code)])
  }

  // What the first n lines give.
  function After(cal: Calendar, lines: seq<string>, n: nat): Progress
    requires n <= |lines|
  {
    if n == 0 then Progress([], [], false)
    else Next(cal, After(cal, lines, n - 1), Normalized(lines[n - 1]), n)
  }

  function CompileSpec(cal: Calendar, markdown: string): Report
  {
    var lines := Lines(markdown);
    var p := After(cal, lines, |lines|);
    Report(p.candidates, p.issues)
  }

  /** compile_heartbeat_markdown */
  method Compile(cal: Calendar, markdown: string) returns (r: Report)
    ensures r == CompileSpec(cal, markdown)
  {
    hide ParseLine;
    hide Tokens;
    hide Normalized;
    var lines := Lines(markdown);
    var candidates, issues := [], [];
    for i := 0 to |lines|
      invariant After(cal, lines, i) == Progress(candidates, issues, false)
    {
      var source := Normalized(lines[i]);
      if source == [] {
        continue;
      }
      if |candidates| >= MAX_CANDIDATES {
        issues := issues + [Issue(i + 1, CandidateLimitExceeded)];
        StoppedStays(cal, lines, i + 1, |lines|);
        return Report(candidates, issues);
      }
      var tokens := Tokenize(source);
      if tokens == [] {
        continue;
      }
      match ParseLine(cal, tokens, i + 1, source)
      case Ok(c) => candidates := candidates + [c];
      case Err(code) => issues := issues + [Issue(i + 1, code)];
    }
    r := Report(candidates, issues);
  }

  lemma {:induction false} StoppedStays(cal: Calendar, lines: seq<string>, i: nat, j: nat)
    requires i <= j <= |lines| && After(cal, lines, i).stopped
    ensures After(cal, lines, j) == After(cal, lines, i)
    decreases j
  {
    hide ParseLine;
    hide Tokens;
    hide Normalized;
    if i < j {
      StoppedStays(cal, lines, i, j - 1);
    }
  }

  // ---------------------------------------------------------------------------------------------
  // What a report holds
  // ---------------------------------------------------------------------------------------------

  // Outcome of line k by itself: none for a line without a directive.
  function LineOutcome(cal: Calendar, lines: seq<string>, k: nat): Option<Result<Candidate, Code>>
    requires 1 <= k <= |lines|
  {
    var source := Normalized(lines[k - 1]);
    if source == [] || Tokens(source) == [] then None
    else Some(ParseLine(cal, Tokens(source), k, source))
  }

  ghost predicate CandidatesOrdered(p: Progress, n: int)
  {
    && (forall i :: 0 <= i < |p.candidates| ==> 1 <= p.candidates[i].line <= n)
    && forall i, j :: 0 <= i < j < |p.candidates| ==> p.candidates[i].line < p.candidates[j].line
  }

  ghost predicate IssuesOrdered(p: Progress, n: nat)
  {
    && (forall i :: 0 <= i < |p.issues| ==> 1 <= p.issues[i].line <= n)
    && forall i, j :: 0 <= i < j < |p.issues| ==> p.issues[i].line < p.issues[j].line
  }

  // The lines judged: all so far, or those before the line that met the limit.
  function Judged(p: Progress, n: nat): int
  {
    if p.stopped && p.issues != [] then p.issues[|p.issues| - 1].line - 1 else n
  }

  // Line k is reported as its outcome says, in one place at most.
  ghost predicate Reported(cal: Calendar, lines: seq<string>, p: Progress, k: nat)
    requires 1 <= k <= |lines|
  {
    var outcome := LineOutcome(cal, lines, k);
    && (forall c :: c in p.candidates && c.line == k <==> outcome == Some(Ok(c)))
    && (forall e :: e in p.issues && e.line == k <==> outcome == Some(Err(e.code)) && e.line == k)
  }

  ghost predicate StopFits(lines: seq<string>, p: Progress)
  {
    && |p.candidates| <= MAX_CANDIDATES
    && (p.stopped ==>
          && |p.candidates| == MAX_CANDIDATES && p.issues != []
          && p.issues[|p.issues| - 1].code == CandidateLimitExceeded
          && 1 <= p.issues[|p.issues| - 1].line <= |lines|
          && Normalized(lines[p.issues[|p.issues| - 1].line - 1]) != [])
  }

  ghost predicate Exact(cal: Calendar, lines: seq<string>, p: Progress, n: nat)
    requires n <= |lines|
  {
    && CandidatesOrdered(p, Judged(p, n)) && IssuesOrdered(p, n) && StopFits(lines, p) && Judged(p, n) <= n
    && forall k :: 1 <= k <= Judged(p, n) ==> Reported(cal, lines, p, k)
  }

  lemma {:induction false} ParsedLine(cal: Calendar, tokens: seq<string>, line: nat, source: string)
    requires tokens != []
    ensures var r := ParseLine(cal, tokens, line, source);
            r.Ok? ==> r.value.line == line && r.value.sourceLine == source
  {
    hide OptionsOf;
    hide Bounded;
    hide DirectiveOf;
  }

  // A line adds nothing, its candidate, or its issue; the limit issue ends the compilation.
  ghost predicate Adds(p: Progress, p': Progress, source: string, line: nat)
  {
    || p' == p
    || (!p.stopped && |p.candidates| < MAX_CANDIDATES && exists c: Candidate ::
          c.line == line && p' == p.(candidates := p.candidates + [c]))
    || (!p.stopped && exists code :: p' == p.(issues := p.issues + [Issue(line, code)]))
    || (!p.stopped && |p.candidates| >= MAX_CANDIDATES && source != [] &&
        p' == p.(issues := p.issues + [Issue(line, CandidateLimitExceeded)], stopped := true))
  }

  lemma {:induction false} NextAdds(cal: Calendar, p: Progress, source: string, line: nat)
    ensures Adds(p, Next(cal, p, source, line), source, line)
  {
    hide ParseLine;
    hide Tokens;
    if Tokens(source) != [] {
      var parsed := ParseLine(cal, Tokens(source), line, source);
      if parsed.Ok? {
        ParsedLine(cal, Tokens(source), line, source);
      } else {
        assert Issue(line, parsed.error).code == parsed.error;
      }
    }
  }

  lemma {:induction false} OrderedNext(cal: Calendar, lines: seq<string>, p: Progress, n: nat)
    requires n < |lines| && Exact(cal, lines, p, n)
    ensures var p' := Next(cal, p, Normalized(lines[n]), n + 1);
            && CandidatesOrdered(p', Judged(p', n + 1)) && IssuesOrdered(p', n + 1) && StopFits(lines, p')
            && Judged(p, n) <= Judged(p', n + 1) <= n + 1 && (Judged(p', n + 1) > Judged(p, n) ==> !p.stopped)
  {
    NextAdds(cal, p, Normalized(lines[n]), n + 1);
    hide Next;
    hide Normalized;
    hide Reported;
  }

  // Earlier lines keep their reports, and the new line gets its own.
  lemma {:induction false} ReportedNext(cal: Calendar, lines: seq<string>, p: Progress, n: nat, k: nat)
    requires n < |lines| && Exact(cal, lines, p, n)
    requires 1 <= k <= Judged(p, n) || (k == n + 1 && !Next(cal, p, Normalized(lines[n]), n + 1).stopped)
    ensures Reported(cal, lines, Next(cal, p, Normalized(lines[n]), n + 1), k)
  {
    hide ParseLine;
    hide Tokens;
    hide Normalized;
    hide StopFits;
    var source := Normalized(lines[n]);
    if Tokens(source) != [] && ParseLine(cal, Tokens(source), n + 1, source).Ok? {
      ParsedLine(cal, Tokens(source), n + 1, source);
    }
    if k <= n {
      assert Reported(cal, lines, p, k);
    }
  }

  lemma {:induction false} ExactNext(cal: Calendar, lines: seq<string>, p: Progress, n: nat)
    requires n < |lines| && Exact(cal, lines, p, n)
    ensures Exact(cal, lines, Next(cal, p, Normalized(lines[n]), n + 1), n + 1)
  {
    hide Normalized;
    hide Reported;
    hide ParseLine;
    hide Tokens;
    var p' := Next(cal, p, Normalized(lines[n]), n + 1);
    OrderedNext(cal, lines, p, n);
    forall k | 1 <= k <= Judged(p', n + 1)
      ensures Reported(cal, lines, p', k)
    {
      ReportedNext(cal, lines, p, n, k);
    }
  }

  /** Candidates and issues carry strictly increasing line numbers, each judged line is reported exactly as
      its own outcome and once, and only a further directive after 128 candidates ends the compilation. */
  lemma {:induction false} ReportIsExact(cal: Calendar, lines: seq<string>, n: nat)
    requires n <= |lines|
    ensures Exact(cal, lines, After(cal, lines, n), n)
  {
    hide Exact;
    hide Next;
    hide Normalized;
    if n > 0 {
      ReportIsExact(cal, lines, n - 1);
      ExactNext(cal, lines, After(cal, lines, n - 1), n - 1);
    } else {
      ExactAtStart(cal, lines);
    }
  }

  lemma {:induction false} ExactAtStart(cal: Calendar, lines: seq<string>)
    ensures Exact(cal, lines, Progress([], [], false), 0)
  {
  }

  // ---------------------------------------------------------------------------------------------
  // Printing a candidate
  // ---------------------------------------------------------------------------------------------

  // Fits inside quotes on one line.
  predicate Clean(s: string)
  {
    '"' !in s && '\n' !in s
  }

  predicate GoodValue(s: string)
  {
    s != [] && Trimmed(s) && Clean(s)
  }

  predicate GoodSchedule(cal: Calendar, s: Schedule)
  {
    match s
    case Interval(seconds) => 60 <= seconds <= 31_536_000
    case Cron(expression, zone) =>
      GoodValue(expression) && cal.validCron(expression) && GoodValue(zone) && cal.validZone(zone)
  }

  predicate WellFormed(cal: Calendar, c: Candidate)
  {
    GoodSchedule(cal, c.schedule) && GoodValue(c.recipe) && 1 <= c.maxInflight <= 1000 && 0 <= c.jitter <= 3600
  }

  predicate AllClean(tokens: seq<string>)
  {
    forall i :: 0 <= i < |tokens| ==> Clean(tokens[i])
  }

  lemma {:induction false} TokensClean(rest: string, current: string, quoted: bool)
    requires '\n' !in rest && Clean(current)
    ensures AllClean(TokensFrom(rest, current, quoted))
    decreases |rest|
  {
    if rest != [] {
      if rest[0] == '"' {
        TokensClean(rest[1..], current, !quoted);
      } else if IsWhitespace(rest[0]) && !quoted {
        TokensClean(rest[1..], [], quoted);
      } else {
        TokensClean(rest[1..], current + [rest[0]], quoted);
      }
    }
  }

  predicate GoodSetting(s: Setting)
  {
    match s
    case Recipe(id) => GoodValue(id)
    case Zone(name) => GoodValue(name)
    case MaxInflight(runs) => 1 <= runs <= 1000
    case Jitter(seconds) => 0 <= seconds <= 3600
  }

  lemma {:induction false} SettingGood(token: string)
    requires Clean(token) && SettingOf(token).Ok?
    ensures GoodSetting(SettingOf(token).value)
  {
    hide KeyOf;
    hide Lower;
    var k := Find(token, '=');
    var value := Trim(token[k + 1..]);
    assert forall c :: c in token[k + 1..] ==> c in token;
    assert GoodValue(value);
  }

  predicate GoodOptions(opts: Options)
  {
    && (opts.recipe.Some? ==> GoodValue(opts.recipe.value)) && (opts.zone.Some? ==> GoodValue(opts.zone.value))
    && 1 <= opts.maxInflight <= 1000 && 0 <= opts.jitter <= 3600
  }

  lemma {:induction false} OptionsGood(tokens: seq<string>)
    requires AllClean(tokens)
    ensures OptionsOf(tokens).Ok? ==> GoodOptions(OptionsOf(tokens).value)
  {
    hide SettingOf;
    hide GoodValue;
    if tokens != [] && OptionsOf(tokens).Ok? {
      OptionsGood(tokens[..|tokens| - 1]);
      SettingGood(tokens[|tokens| - 1]);
    }
  }

  lemma {:induction false} TrimGood(s: string)
    requires Clean(s) && Trim(s) != []
    ensures GoodValue(Trim(s))
  {
  }

  lemma {:induction false} UtcGood()
    ensures GoodValue("UTC")
  {
  }

  lemma {:induction false} ParsedWellFormed(cal: Calendar, tokens: seq<string>, line: nat, source: string)
    requires tokens != [] && AllClean(tokens)
    ensures var r := ParseLine(cal, tokens, line, source); r.Ok? ==> WellFormed(cal, r.value)
  {
    hide OptionsOf;
    hide GoodValue;
    hide DirectiveOf;
    hide ParseI64;
    UtcGood();
    if |tokens| >= 3 {
      assert AllClean(tokens[2..]);
      if OptionsOf(tokens[2..]).Ok? {
        OptionsGood(tokens[2..]);
      }
      if Trim(tokens[1]) != [] {
        TrimGood(tokens[1]);
      }
    }
  }

  lemma {:induction false} NormalizedOneLine(raw: string)
    requires '\n' !in raw
    ensures '\n' !in Normalized(raw)
  {
  }

  /** Every candidate of every report is within the option bounds, on a valid schedule, with printable values. */
  lemma {:induction false} CandidatesWellFormed(cal: Calendar, markdown: string, c: Candidate)
    requires c in CompileSpec(cal, markdown).candidates
    ensures WellFormed(cal, c)
  {
    hide ParseLine;
    hide TokensFrom;
    hide Normalized;
    var lines := Lines(markdown);
    var p := After(cal, lines, |lines|);
    ReportIsExact(cal, lines, |lines|);
    var k := c.line;
    assert Reported(cal, lines, p, k);
    var source := Normalized(lines[k - 1]);
    NormalizedOneLine(lines[k - 1]);
    TokensClean(source, [], false);
    ParsedWellFormed(cal, Tokens(source), k, source);
  }

  // Tokens in quotes, with a blank between them.
  function Quoted(tokens: seq<string>): string
  {
    if tokens == [] then []
    else ['"'] + tokens[0] + ['"'] + (if |tokens| == 1 then [] else [' '] + Quoted(tokens[1..]))
  }

  function Assign(name: string, value: string): string
  {
    name + ['='] + value
  }

  function OptionTokens(c: Candidate): seq<string>
  {
    var common := [Assign("recipe", c.recipe), Assign("max_inflight", Decimal(c.maxInflight)), Assign("jitter", Decimal(c.jitter))];
    if c.schedule.Cron? then common + [Assign("timezone", c.schedule.timezone)] else common
  }

  function DirectiveTokens(c: Candidate): seq<string>
  {
    match c.schedule
    case Interval(seconds) => ["every", Decimal(seconds)] + OptionTokens(c)
    case Cron(expression, _) => ["cron", expression] + OptionTokens(c)
  }

  function Printed(c: Candidate): string
  {
    Quoted(DirectiveTokens(c))
  }

  lemma {:induction false} InsideQuotes(text: string, rest: string, current: string)
    requires '"' !in text
    ensures TokensFrom(text + ['"'] + rest, current, true) == TokensFrom(rest, current + text, false)
    decreases |text|
  {
    var all := text + ['"'] + rest;
    if text == [] {
      assert all[1..] == rest && current + text == current;
    } else {
      assert all[0] == text[0] && all[1..] == text[1..] + ['"'] + rest;
      InsideQuotes(text[1..], rest, current + [text[0]]);
      assert current + [text[0]] + text[1..] == current + text;
    }
  }

  /** Quoting tokens and tokenizing the result gives the tokens back. */
  lemma {:induction false} TokensOfQuoted(tokens: seq<string>)
    requires AllClean(tokens) && forall i :: 0 <= i < |tokens| ==> tokens[i] != []
    ensures Tokens(Quoted(tokens)) == tokens
  {
    if tokens != [] {
      var tail := if |tokens| == 1 then [] else [' '] + Quoted(tokens[1..]);
      var text := Quoted(tokens);
      assert text[0] == '"' && text[1..] == tokens[0] + ['"'] + tail;
      assert Clean(tokens[0]);
      InsideQuotes(tokens[0], tail, []);
      assert [] + tokens[0] == tokens[0];
      if |tokens| > 1 {
        TokensOfQuoted(tokens[1..]);
        assert tail[1..] == Quoted(tokens[1..]);
      }
    }
  }

  lemma {:induction false} QuotedShape(tokens: seq<string>)
    requires AllClean(tokens) && tokens != []
    ensures var text := Quoted(tokens); |text| >= 2 && text[0] == '"' && text[|text| - 1] == '"' && '\n' !in text
  {
    assert Clean(tokens[0]);
    if |tokens| > 1 {
      QuotedShape(tokens[1..]);
    }
  }

  lemma {:induction false} UnbrokenLine(text: string)
    requires text != [] && '\n' !in text
    ensures Lines(text) == [text]
  {
    var k := Find(text, '\n');
    assert k == |text|;
  }

  lemma {:induction false} QuotedIsDirective(text: string)
    requires |text| >= 2 && text[0] == '"' && text[|text| - 1] == '"'
    ensures Normalized(text) == text
  {
    hide Trim;
    assert Trimmed(text);
  }

  lemma {:induction false} FindAfter(a: string, c: char, b: string)
    requires c !in a
    ensures Find(a + [c] + b, c) == |a|
  {
    if a != [] {
      assert (a + [c] + b)[1..] == a[1..] + [c] + b;
      FindAfter(a[1..], c, b);
    }
  }

  lemma {:induction false} OptionToken(name: string, value: string)
    requires '=' !in name && Trimmed(name) && Lower(name) == name
    requires value != [] && Trimmed(value)
    ensures SettingOf(Assign(name, value)) == SettingOfKey(KeyOf(name), value)
  {
    hide KeyOf;
    hide SettingOfKey;
    hide Lower;
    var token := Assign(name, value);
    FindAfter(name, '=', value);
    assert token[..|name|] == name && token[|name| + 1..] == value;
  }

  lemma {:induction false} DecimalGood(n: nat)
    ensures GoodValue(Decimal(n))
  {
    var s := Decimal(n);
    assert IsDigit(s[0]) && s[|s| - 1] in s;
  }

  lemma {:induction false} RecipeToken(value: string)
    requires GoodValue(value)
    ensures SettingOf(Assign("recipe", value)) == Ok(Recipe(value)) && Clean(Assign("recipe", value))
  {
    LowerUnchanged("recipe");
    OptionToken("recipe", value);
  }

  lemma {:induction false} ZoneToken(value: string)
    requires GoodValue(value)
    ensures SettingOf(Assign("timezone", value)) == Ok(Zone(value)) && Clean(Assign("timezone", value))
  {
    LowerUnchanged("timezone");
    OptionToken("timezone", value);
  }

  lemma {:induction false} NumberNames()
    ensures KeyOf("max_inflight") == MaxInflightKey && Lower("max_inflight") == "max_inflight" && Trimmed("max_inflight")
    ensures KeyOf("jitter") == JitterKey && Lower("jitter") == "jitter" && Trimmed("jitter")
    ensures '=' !in "max_inflight" && '=' !in "jitter" && Clean("max_inflight") && Clean("jitter")
  {
    LowerUnchanged("max_inflight");
    LowerUnchanged("jitter");
  }

  lemma {:induction false} NumberToken(name: string, n: nat)
    requires '=' !in name && Trimmed(name) && Lower(name) == name && Clean(name) && n <= 0x7FFF_FFFF
    ensures Clean(Assign(name, Decimal(n))) && ParseI32(Decimal(n)) == Some(n)
    ensures SettingOf(Assign(name, Decimal(n))) == SettingOfKey(KeyOf(name), Decimal(n))
  {
    DecimalGood(n);
    ParseDecimal(n, -0x8000_0000, 0x7FFF_FFFF);
    OptionToken(name, Decimal(n));
    hide *;
    CleanConcat(name, Decimal(n));
  }

  lemma {:induction false} CleanConcat(a: string, b: string)
    requires Clean(a) && Clean(b)
    ensures Clean(Assign(a, b))
  {
  }

  lemma {:induction false} MaxInflightToken(n: int)
    requires 1 <= n <= 1000
    ensures SettingOf(Assign("max_inflight", Decimal(n))) == Ok(MaxInflight(n)) && Clean(Assign("max_inflight", Decimal(n)))
  {
    hide KeyOf;
    hide Decimal;
    hide ParseI32;
    hide SettingOf;
    hide Clean;
    hide Assign;
    NumberNames();
    NumberToken("max_inflight", n);
  }

  lemma {:induction false} JitterToken(n: int)
    requires 0 <= n <= 3600
    ensures SettingOf(Assign("jitter", Decimal(n))) == Ok(Jitter(n)) && Clean(Assign("jitter", Decimal(n)))
  {
    hide KeyOf;
    hide Decimal;
    hide ParseI32;
    hide SettingOf;
    hide Clean;
    hide Assign;
    NumberNames();
    NumberToken("jitter", n);
  }

  lemma {:induction false} PrintedOptions(cal: Calendar, c: Candidate)
    requires WellFormed(cal, c)
    ensures AllClean(OptionTokens(c))
    ensures OptionsOf(OptionTokens(c)) ==
            Ok(Options(Some(c.recipe), if c.schedule.Cron? then Some(c.schedule.timezone) else None, c.maxInflight, c.jitter))
  {
    hide SettingOf;
    hide Clean;
    hide Decimal;
    hide Assign;
    RecipeToken(c.recipe);
    MaxInflightToken(c.maxInflight);
    JitterToken(c.jitter);
    var tokens := OptionTokens(c);
    assert tokens[..0] == [] && tokens[..1][..0] == [] && tokens[..2][..1] == tokens[..1] && tokens[..3][..2] == tokens[..2];
    assert OptionsOf(tokens[..1]) == Ok(Options(Some(c.recipe), None, 1, 0));
    assert OptionsOf(tokens[..2]) == Ok(Options(Some(c.recipe), None, c.maxInflight, 0));
    assert OptionsOf(tokens[..3]) == Ok(Options(Some(c.recipe), None, c.maxInflight, c.jitter));
    if c.schedule.Cron? {
      ZoneToken(c.schedule.timezone);
    } else {
      assert tokens[..3] == tokens;
    }
  }

  lemma {:induction false} DirectiveWords()
    ensures DirectiveOf("every") == IntervalDirective && DirectiveOf("cron") == CronDirective
    ensures Clean("every") && Clean("cron")
  {
    LowerUnchanged("every");
    LowerUnchanged("cron");
  }

  lemma {:induction false} PrintedTokens(cal: Calendar, c: Candidate)
    requires WellFormed(cal, c)
    ensures var tokens := DirectiveTokens(c);
            AllClean(tokens) && |tokens| >= 3 && (forall i :: 0 <= i < |tokens| ==> tokens[i] != [])
    ensures ParseLine(cal, DirectiveTokens(c), c.line, c.sourceLine) == Ok(c)
  {
    hide OptionsOf;
    hide Clean;
    hide DirectiveOf;
    hide Decimal;
    hide ParseInt;
    PrintedOptions(cal, c);
    DirectiveWords();
    var tokens := DirectiveTokens(c);
    assert tokens[2..] == OptionTokens(c);
    if c.schedule.Interval? {
      DecimalGood(c.schedule.seconds);
      ParseDecimal(c.schedule.seconds, -0x8000_0000_0000_0000, 0x7FFF_FFFF_FFFF_FFFF);
    }
  }

  /** Printing a well-formed candidate as one directive and compiling it gives the candidate back. */
  lemma {:induction false} PrintedCompiles(cal: Calendar, c: Candidate)
    requires WellFormed(cal, c)
    ensures CompileSpec(cal, Printed(c)) == Report([c.(line := 1, sourceLine := Printed(c))], [])
  {
    hide ParseLine;
    hide TokensFrom;
    hide Lines;
    hide Normalized;
    hide Quoted;
    hide DirectiveTokens;
    hide WellFormed;
    var text := Printed(c);
    var c' := c.(line := 1, sourceLine := text);
    SameTokens(cal, c, c');
    PrintedTokens(cal, c');
    TokensOfQuoted(DirectiveTokens(c'));
    QuotedShape(DirectiveTokens(c'));
    UnbrokenLine(text);
    QuotedIsDirective(text);
    assert After(cal, [text], 0) == Progress([], [], false);
    assert After(cal, [text], 1) == Next(cal, Progress([], [], false), text, 1);
  }

  lemma {:induction false} SameTokens(cal: Calendar, c: Candidate, c': Candidate)
    requires c' == c.(line := c'.line, sourceLine := c'.sourceLine)
    ensures DirectiveTokens(c') == DirectiveTokens(c) && WellFormed(cal, c') == WellFormed(cal, c)
  {
  }

  /** Round trip: any candidate the compiler produces is reproduced from its printed directive, up to its
      line number and source line. */
  lemma {:induction false} ProducedCandidateReprints(cal: Calendar, markdown: string, c: Candidate)
    requires c in CompileSpec(cal, markdown).candidates
    ensures CompileSpec(cal, Printed(c)) == Report([c.(line := 1, sourceLine := Printed(c))], [])
  {
    CandidatesWellFormed(cal, markdown, c);
    PrintedCompiles(cal, c);
  }

  // ---------------------------------------------------------------------------------------------
  // Documents of printed candidates
  // ---------------------------------------------------------------------------------------------

  // Every text on a line of its own.
  function Document(texts: seq<string>, newline: string): string
  {
    if texts == [] then [] else texts[0] + newline + Document(texts[1..], newline)
  }

  lemma {:induction false} FirstLine(line: string, rest: string)
    requires '\n' !in line
    ensures Lines(line + ['\n'] + rest) == [WithoutReturn(line)] + Lines(rest)
  {
    var s := line + ['\n'] + rest;
    FindAfter(line, '\n', rest);
    assert s[..|line|] == line && s[|line| + 1..] == rest;
  }

  predicate OneLiner(text: string)
  {
    '\n' !in text && (text != [] ==> text[|text| - 1] != '\r')
  }

  /** A document has exactly its lines, with either kind of line end. */
  lemma {:induction false} LinesOfDocument(texts: seq<string>, newline: string)
    requires newline == "\n" || newline == "\r\n"
    requires forall i :: 0 <= i < |texts| ==> OneLiner(texts[i])
    ensures Lines(Document(texts, newline)) == texts
  {
    if texts != [] {
      hide Lines;
      var text, rest := texts[0], Document(texts[1..], newline);
      LinesOfDocument(texts[1..], newline);
      assert OneLiner(text);
      if newline == "\n" {
        FirstLine(text, rest);
      } else {
        var line := text + ['\r'];
        assert line[..|line| - 1] == text;
        FirstLine(line, rest);
        assert text + newline + rest == line + ['\n'] + rest;
      }
    }
  }

  // A printed candidate is a line of its own, read back as that candidate on any line.
  lemma {:induction false} PrintedLine(cal: Calendar, c: Candidate, n: nat)
    requires WellFormed(cal, c)
    ensures var text := Printed(c);
            && |text| >= 2 && text[0] == '"' && text[|text| - 1] == '"' && '\n' !in text
            && Normalized(text) == text && Tokens(text) != []
            && ParseLine(cal, Tokens(text), n, text) == Ok(c.(line := n, sourceLine := text))
  {
    hide ParseLine;
    hide TokensFrom;
    hide Normalized;
    hide Quoted;
    hide DirectiveTokens;
    hide WellFormed;
    var text := Printed(c);
    var c' := c.(line := n, sourceLine := text);
    SameTokens(cal, c, c');
    PrintedTokens(cal, c');
    TokensOfQuoted(DirectiveTokens(c'));
    QuotedShape(DirectiveTokens(c'));
    QuotedIsDirective(text);
  }

  function Printeds(cs: seq<Candidate>): seq<string>
  {
    seq(|cs|, i requires 0 <= i < |cs| => Printed(cs[i]))
  }

  // The candidates as the compiler numbers them.
  function Numbered(cs: seq<Candidate>): seq<Candidate>
  {
    seq(|cs|, i requires 0 <= i < |cs| => cs[i].(line := i + 1, sourceLine := Printed(cs[i])))
  }

  lemma {:induction false} NextPrinted(cal: Calendar, p: Progress, c: Candidate, n: nat)
    requires WellFormed(cal, c)
    ensures Next(cal, p, Normalized(Printed(c)), n) ==
            if p.stopped then p
            else if |p.candidates| < 128 then
              p.(candidates := p.candidates + [c.(line := n, sourceLine := Printed(c))])
            else p.(issues := p.issues + [Issue(n, CandidateLimitExceeded)], stopped := true)
  {
    PrintedLine(cal, c, n);
    hide ParseLine;
    hide Tokens;
    hide Normalized;
    hide Printed;
    hide WellFormed;
  }

  function FirstPrinted(cs: seq<Candidate>, n: nat): Progress
    requires n <= |cs|
  {
    if n <= 128 then Progress(Numbered(cs)[..n], [], false)
    else Progress(Numbered(cs)[..128], [Issue(129, CandidateLimitExceeded)], true)
  }

  lemma {:induction false} AfterPrinted(cal: Calendar, cs: seq<Candidate>, n: nat)
    requires n <= |cs| && forall i :: 0 <= i < |cs| ==> WellFormed(cal, cs[i])
    ensures After(cal, Printeds(cs), n) == FirstPrinted(cs, n)
  {
    hide Next;
    hide Normalized;
    hide Printed;
    hide WellFormed;
    if n > 0 {
      AfterPrinted(cal, cs, n - 1);
      NextPrinted(cal, FirstPrinted(cs, n - 1), cs[n - 1], n);
      if n <= 128 {
        assert Numbered(cs)[..n] == Numbered(cs)[..n - 1] + [Numbered(cs)[n - 1]];
      }
    }
  }

  /** A document that lists any well-formed candidates, one directive on a line, compiles to exactly those, in order
      and numbered by their lines; from the 129th on they are cut off with one issue. */
  lemma {:induction false} DocumentCompiles(cal: Calendar, cs: seq<Candidate>, newline: string)
    requires newline == "\n" || newline == "\r\n"
    requires forall i :: 0 <= i < |cs| ==> WellFormed(cal, cs[i])
    ensures CompileSpec(cal, Document(Printeds(cs), newline)) ==
            if |cs| <= 128 then Report(Numbered(cs), [])
            else Report(Numbered(cs)[..128], [Issue(129, CandidateLimitExceeded)])
  {
    forall i | 0 <= i < |cs|
      ensures OneLiner(Printeds(cs)[i])
    {
      PrintedLine(cal, cs[i], 0);
    }
    LinesOfDocument(Printeds(cs), newline);
    AfterPrinted(cal, cs, |cs|);
    assert |cs| <= 128 ==> Numbered(cs)[..|cs|] == Numbered(cs);
  }

  // ---------------------------------------------------------------------------------------------
  // Decorations, defaults and spellings
  // ---------------------------------------------------------------------------------------------

  lemma {:induction false} PaddingIgnored(before: string, text: string, after: string)
    requires Trimmed(text) && Blank(before) && Blank(after)
    ensures Normalized(before + text + after) == Normalized(text)
  {
    TrimPadded(before, text, after);
    hide Trim;
  }

  /** Around a directive, white space and one bullet are ignored; a heading is no directive. */
  lemma {:induction false} Decorations(directive: string, before: string, after: string, mark: string)
    requires directive != [] && Trimmed(directive) && directive[0] != '#' && directive[0] != '-' && directive[0] != '*'
    requires Blank(before) && Blank(after)
    requires mark == "" || mark == "- " || mark == "* " || mark == "#" || mark == "# "
    ensures Normalized(before + (mark + directive) + after) ==
            if mark == "#" || mark == "# " then [] else directive
    ensures Normalized(before + [] + after) == []
  {
    var text := mark + directive;
    assert Trimmed(text) && Trim(text) == text;
    PaddingIgnored(before, text, after);
    PaddingIgnored(before, [], after);
    hide Trim;
    hide IsWhitespace;
    assert mark == "" ==> text == directive;
    assert mark == "- " || mark == "* " ==> text[2..] == directive;
  }

  /** Options left out take their defaults: one run at a time, no jitter, and universal time for a schedule. */
  lemma {:induction false} OmittedOptions(cal: Calendar, seconds: nat, expression: string, recipe: string)
    requires 60 <= seconds <= 31_536_000 && GoodValue(recipe) && GoodValue(expression)
    ensures ParseLine(cal, ["every", Decimal(seconds), Assign("recipe", recipe)], 1, "") ==
            Ok(Candidate(Interval(seconds), recipe, 1, 0, 1, ""))
    ensures cal.validCron(expression) && cal.validZone("UTC") ==>
              ParseLine(cal, ["cron", expression, Assign("recipe", recipe)], 1, "") ==
              Ok(Candidate(Cron(expression, "UTC"), recipe, 1, 0, 1, ""))
  {
    hide SettingOf;
    hide Decimal;
    hide ParseInt;
    hide Assign;
    hide DirectiveOf;
    RecipeToken(recipe);
    DirectiveWords();
    ParseDecimal(seconds, -0x8000_0000_0000_0000, 0x7FFF_FFFF_FFFF_FFFF);
    var option := [Assign("recipe", recipe)];
    assert option[..0] == [];
    assert OptionsOf(option) == Ok(Options(Some(recipe), None, 1, 0));
    assert ["every", Decimal(seconds), Assign("recipe", recipe)][2..] == option;
    assert ["cron", expression, Assign("recipe", recipe)][2..] == option;
    hide OptionsOf;
  }

  /** The long and short names of the options and directives mean the same. */
  lemma {:induction false} Spellings()
    ensures KeyOf("recipe_id") == KeyOf("recipe") == RecipeKey && KeyOf("tz") == KeyOf("timezone") == ZoneKey
    ensures KeyOf("max_inflight_runs") == KeyOf("max_inflight") == MaxInflightKey
    ensures KeyOf("jitter_seconds") == KeyOf("jitter") == JitterKey
    ensures DirectiveOf("interval") == DirectiveOf("every") == IntervalDirective
  {
    LowerUnchanged("interval");
    LowerUnchanged("every");
  }

  // ---------------------------------------------------------------------------------------------
  // Which issue a line gets
  // ---------------------------------------------------------------------------------------------

  /** The issue of an interval directive names its first fault: too few tokens, seconds that are no number, seconds
      out of range, a bad option, no recipe; without a fault there is a candidate. */
  lemma {:induction false} IntervalIssues(tokens: seq<string>, line: nat, source: string)
    ensures var r := ParseIntervalLine(tokens, line, source);
            var seconds := if |tokens| >= 3 then ParseI64(tokens[1]) else None;
            var opts := if |tokens| >= 3 then OptionsOf(tokens[2..]) else Ok(DEFAULTS);
            var inRange := seconds.Some? && 60 <= seconds.value <= 31_536_000;
            && (r == Err(InvalidIntervalSyntax) <== |tokens| < 3)
            && (r == Err(InvalidIntervalSeconds) <== |tokens| >= 3 && seconds.None?)
            && (r == Err(IntervalOutOfBounds) <== seconds.Some? && !inRange)
            && (r == Err(opts.error) <== inRange && opts.Err?)
            && (r == Err(MissingRecipe) <== inRange && opts.Ok? && opts.value.recipe.None?)
            && (r.Ok? <==> inRange && opts.Ok? && opts.value.recipe.Some?)
  {
    hide ParseI64;
    hide OptionsOf;
  }

  /** Likewise for a cron directive: too few tokens, a bad expression, a bad option, no recipe, a bad time zone. */
  lemma {:induction false} CronIssues(cal: Calendar, tokens: seq<string>, line: nat, source: string)
    ensures var r := ParseCronLine(cal, tokens, line, source);
            var expression := if |tokens| >= 3 then Trim(tokens[1]) else [];
            var opts := if |tokens| >= 3 then OptionsOf(tokens[2..]) else Ok(DEFAULTS);
            var good := expression != [] && cal.validCron(expression);
            && (r == Err(InvalidCronSyntax) <== |tokens| < 3)
            && (r == Err(InvalidCronExpression) <== |tokens| >= 3 && !good)
            && (r == Err(opts.error) <== |tokens| >= 3 && good && opts.Err?)
            && (r == Err(MissingRecipe) <== |tokens| >= 3 && good && opts.Ok? && opts.value.recipe.None?)
            && (r == Err(InvalidTimezone) <== |tokens| >= 3 && good && opts.Ok? && opts.value.recipe.Some? &&
                                              !cal.validZone(ZoneName(opts.value)))
  {
    hide Trim;
    hide OptionsOf;
  }

  /** A faulty option token is reported by what is wrong with it. */
  lemma {:induction false} OptionIssues(name: string, value: string)
    requires '=' !in name && Trimmed(name) && Lower(name) == name && value != [] && Trimmed(value)
    ensures SettingOf(name) == Err(InvalidOption) && SettingOf(Assign(name, " ")) == Err(InvalidOption)
    ensures var r := SettingOf(Assign(name, value)); var n := ParseI32(value);
            && (KeyOf(name).UnknownKey? ==> r == Err(UnknownOption))
            && (KeyOf(name).MaxInflightKey? && n.None? ==> r == Err(InvalidMaxInflight))
            && (KeyOf(name).MaxInflightKey? && n.Some? && !(1 <= n.value <= 1000) ==> r == Err(MaxInflightOutOfBounds))
            && (KeyOf(name).JitterKey? && n.None? ==> r == Err(InvalidJitter))
            && (KeyOf(name).JitterKey? && n.Some? && !(0 <= n.value <= 3600) ==> r == Err(JitterOutOfBounds))
  {
    OptionToken(name, value);
    var blank := Assign(name, " ");
    FindAfter(name, '=', " ");
    assert blank[|name| + 1..] == " ";
    TrimFront(" ", []);
    TrimNothing();
    assert " " + [] == " ";
    NoEquals(name);
    hide Trim;
    hide ParseI32;
    hide KeyOf;
  }

  lemma {:induction false} NoEquals(name: string)
    requires '=' !in name
    ensures Find(name, '=') == |name|
  {
  }
}
