/** The cron help text of src/renderer/src/utils/cron.js: an expression is
    first validated by constructing a `Cron`, then a nickname is replaced by
    its five-field equivalent, then the result is described. The description
    (`cronstrue`) is a parameter; validation is the library's `accepts`
    without a timezone. */
module CronHelp {
  import opened Values
  import Scheduler

  /** The nickname table. */
  const Nicknames: map<string, string> := map[
    "@yearly" := "0 0 1 1 *",
    "@annually" := "0 0 1 1 *",
    "@monthly" := "0 0 1 * *",
    "@weekly" := "0 0 * * 0",
    "@daily" := "0 0 * * *",
    "@hourly" := "0 * * * *"
  ]

  /** `expression.split(' ')`. */
  function Split(s: string): (r: seq<string>)
    ensures |r| >= 1
    ensures |r| - 1 == CountSpaces(s)
  {
    if |s| == 0 then [""]
    else
      var rest := Split(s[1..]);
      if s[0] == ' ' then [""] + rest else [[s[0]] + rest[0]] + rest[1..]
  }

  function CountSpaces(s: string): nat
  {
    if |s| == 0 then 0 else (if s[0] == ' ' then 1 else 0) + CountSpaces(s[1..])
  }

  /** Five space-separated fields, none of them empty. */
  predicate FiveFields(s: string)
  {
    var fields := Split(s);
    |fields| == 5 && forall i :: 0 <= i < 5 ==> fields[i] != ""
  }

  /** `if (nicknames[expression]) expression = nicknames[expression]`. */
  function Expand(expression: string): (r: string)
    ensures expression in Nicknames ==> r == Nicknames[expression]
    ensures expression !in Nicknames ==> r == expression
  {
    if expression in Nicknames then Nicknames[expression] else expression
  }

  /** `getCronHelpMessage`: the library's error message when the expression
      does not construct, otherwise the description of the expanded expression. */
  function HelpMessage(lib: Scheduler.Croner, describe: string -> string, expression: string): (r: string)
    ensures !lib.accepts(expression, None) ==> r == lib.rejection(expression)
    ensures lib.accepts(expression, None) ==> r == describe(Expand(expression))
  {
    if !lib.accepts(expression, None) then lib.rejection(expression)
    else describe(Expand(expression))
  }

  /** `@yearly` and `@annually` are the same schedule. */
  lemma YearlyIsAnnually()
    ensures Expand("@yearly") == Expand("@annually") == "0 0 1 1 *"
  {
  }

  /** Every nickname expands to five non-empty space-separated fields. */
  lemma NicknamesHaveFiveFields()
    ensures forall k :: k in Nicknames ==> FiveFields(Nicknames[k])
  {
    forall k | k in Nicknames
      ensures FiveFields(Nicknames[k])
    {
      assert SpacedChars(Nicknames[k]);
      SpacedCharsHaveFiveFields(Nicknames[k]);
    }
  }

  /** Five characters other than a space, separated by single spaces. */
  predicate SpacedChars(s: string)
  {
    && |s| == 9
    && s[1] == ' ' && s[3] == ' ' && s[5] == ' ' && s[7] == ' '
    && s[0] != ' ' && s[2] != ' ' && s[4] != ' ' && s[6] != ' ' && s[8] != ' '
  }

  lemma SpacedCharsHaveFiveFields(s: string)
    requires SpacedChars(s)
    ensures FiveFields(s)
  {
    SplitFiveChars(s[0], s[2], s[4], s[6], s[8]);
    assert s == [s[0], ' ', s[2], ' ', s[4], ' ', s[6], ' ', s[8]];
  }

  /** Five single characters separated by single spaces split into five fields. */
  lemma SplitFiveChars(a: char, b: char, c: char, d: char, e: char)
    requires a != ' ' && b != ' ' && c != ' ' && d != ' ' && e != ' '
    ensures Split([a, ' ', b, ' ', c, ' ', d, ' ', e]) == [[a], [b], [c], [d], [e]]
  {
    var t1 := [e];
    assert Split(t1) == [[e]] by {
      assert t1[1..] == [];
      assert Split(t1[1..]) == [""];
      assert [e] + "" == [e];
    }
    var t2 := [d, ' '] + t1;
    assert Split(t2) == [[d], [e]] by { SplitField(d, t1); }
    var t3 := [c, ' '] + t2;
    assert Split(t3) == [[c], [d], [e]] by { SplitField(c, t2); }
    var t4 := [b, ' '] + t3;
    assert Split(t4) == [[b], [c], [d], [e]] by { SplitField(b, t3); }
    var t5 := [a, ' '] + t4;
    assert Split(t5) == [[a], [b], [c], [d], [e]] by { SplitField(a, t4); }
    assert t5 == [a, ' ', b, ' ', c, ' ', d, ' ', e];
  }

  /** A one-character field followed by a space splits off on its own. */
  lemma SplitField(c: char, t: string)
    requires c != ' '
    ensures Split([c, ' '] + t) == [[c]] + Split(t)
  {
    var s := [c, ' '] + t;
    assert s[1..] == [' '] + t;
    assert s[1..][1..] == t;
    assert Split(s[1..]) == [""] + Split(t);
    assert [c] + "" == [c];
  }

  /** Only the six nickname keys are rewritten. */
  lemma ExpandRewritesOnlyNicknames(expression: string)
    ensures Expand(expression) != expression <==> expression in Nicknames
  {
  }

  /** No expansion is itself a nickname, so expanding twice is expanding once. */
  lemma ExpandIdempotent(expression: string)
    ensures Expand(expression) !in Nicknames
    ensures Expand(Expand(expression)) == Expand(expression)
  {
  }

  /** A rejected expression is reported with the library's message and never
      described: the description function plays no part. */
  lemma RejectedIsNeverDescribed(lib: Scheduler.Croner, d1: string -> string, d2: string -> string, expression: string)
    requires !lib.accepts(expression, None)
    ensures HelpMessage(lib, d1, expression) == HelpMessage(lib, d2, expression)
  {
  }
}
