/**
  The chat-history formatter: a list of `{role, content}` records becomes one
  text block with a `User: ` or `AI: ` line per recognised turn, in input
  order, joined by newlines. Anything other than a list gives the empty text.
  A record that is not a dictionary, or whose role or content is not a
  string, makes the formatter raise; the caller turns that into a failure.
 */
module History {
  import opened PyValues

  datatype Speaker = User | AI

  /** The speaker a lower-cased role names; other roles are dropped. */
  function RoleSpeaker(role: string): Option<Speaker>
  {
    if role == "user" then Some(User)
    else if role == "assistant" || role == "bot" then Some(AI)
    else None
  }

  function Prefix(s: Speaker): string
  {
    match s
    case User => "User: "
    case AI => "AI: "
  }

  /** `role` spells `name` once its ASCII letters are lower-cased. */
  ghost predicate SpellsIgnoringCase(role: string, name: string)
  {
    |role| == |name| && forall i | 0 <= i < |role| :: LowerChar(role[i]) == name[i]
  }

  /** Roles are matched without regard to the case of their letters:
      `User`, `USER` and `user` all name the user, and `Assistant`, `BOT`
      and the like name the assistant. */
  lemma RoleIgnoresCase(role: string)
    ensures RoleSpeaker(LowerString(role)) == Some(User) <==> SpellsIgnoringCase(role, "user")
    ensures RoleSpeaker(LowerString(role)) == Some(AI)
            <==> SpellsIgnoringCase(role, "assistant") || SpellsIgnoringCase(role, "bot")
  {
    LowerStringMapsLowerChar(role);
    var lowered := LowerString(role);
    assert forall name :: SpellsIgnoringCase(role, name) ==> lowered == name;
  }

  // ---------------------------------------------------------------------
  // What a single record is, stated without running the formatter.

  /** A record the formatter reads without raising: a dictionary whose
      `role` and `content`, where present, are strings. */
  predicate WellFormedTurn(msg: Json)
  {
    msg.JObj?
    && ("role" in msg.fields ==> msg.fields["role"].JStr?)
    && ("content" in msg.fields ==> msg.fields["content"].JStr?)
  }

  /** A string field of a well-formed record; a missing field reads as "". */
  function TextField(msg: Json, name: string): string
    requires msg.JObj?
  {
    if name in msg.fields && msg.fields[name].JStr? then msg.fields[name].s else ""
  }

  predicate Recognised(msg: Json)
  {
    WellFormedTurn(msg) && RoleSpeaker(LowerString(TextField(msg, "role"))).Some?
  }

  /** The line a recognised record contributes. */
  function LineOf(msg: Json): string
    requires Recognised(msg)
  {
    Prefix(RoleSpeaker(LowerString(TextField(msg, "role"))).value) + Strip(TextField(msg, "content"))
  }

  /** The exception a malformed record raises: `get` on a non-dictionary
      first, then `lower` on the role, then `strip` on the content. */
  function ErrorOf(msg: Json): PyError
    requires !WellFormedTurn(msg)
  {
    if !msg.JObj? then AttributeError(TypeName(msg), "get")
    else if "role" in msg.fields && !msg.fields["role"].JStr? then
      AttributeError(TypeName(msg.fields["role"]), "lower")
    else AttributeError(TypeName(msg.fields["content"]), "strip")
  }

  // ---------------------------------------------------------------------
  // The formatter as the source evaluates it.

  /** `msg.get("role", "").lower()` */
  function LoweredRole(msg: Json): (r: Result<string>)
    ensures WellFormedTurn(msg) ==> r == Ok(LowerString(TextField(msg, "role")))
  {
    var role :- Get(msg, "role", JStr(""));
    Lower(role)
  }

  /** `msg.get("content", "").strip()` */
  function StrippedContent(msg: Json): (r: Result<string>)
    ensures WellFormedTurn(msg) ==> r == Ok(Strip(TextField(msg, "content")))
  {
    var content :- Get(msg, "content", JStr(""));
    StripValue(content)
  }

  /** One loop iteration: the record's line, `None` for a dropped role. */
  function TurnLine(msg: Json): (r: Result<Option<string>>)
    ensures !WellFormedTurn(msg) ==> r == Err(ErrorOf(msg))
    ensures WellFormedTurn(msg) ==> r.Ok? && (r.value.Some? <==> Recognised(msg))
    ensures Recognised(msg) ==> r == Ok(Some(LineOf(msg)))
  {
    var role :- LoweredRole(msg);
    var content :- StrippedContent(msg);
    match RoleSpeaker(role)
    case Some(speaker) => Ok(Some(Prefix(speaker) + content))
    case None => Ok(None)
  }

  /** What one pass of the loop does with a record: raise, skip it, or
      contribute a line. */
  type Step = Json -> Result<Option<string>>

  /** The lines a loop over `turns` collects with `step`, or the first
      exception it raises. */
  function Collect(step: Step, turns: seq<Json>): Result<seq<string>>
  {
    if turns == [] then Ok([])
    else
      var earlier :- Collect(step, turns[..|turns| - 1]);
      var line :- step(turns[|turns| - 1]);
      Ok(if line.Some? then earlier + [line.value] else earlier)
  }

  /** The lines produced for the records of a history list. */
  function Lines(turns: seq<Json>): Result<seq<string>>
  {
    Collect(TurnLine, turns)
  }

  /** `sep.join(lines)` */
  function Join(lines: seq<string>, sep: string): string
  {
    if lines == [] then ""
    else if |lines| == 1 then lines[0]
    else lines[0] + sep + Join(lines[1..], sep)
  }

  /** `format_chat_history(history)` */
  function FormatHistory(history: Json): Result<string>
  {
    if !history.JArr? then Ok("")
    else
      var lines :- Lines(history.items);
      Ok(Join(lines, "\n"))
  }

  /** The loop of `format_chat_history`: appends one line per recognised
      record to `formatted`, stopping at the first record that raises. */
  method FormatChatHistory(history: Json) returns (r: Result<string>)
    ensures r == FormatHistory(history)
  {
    if !history.JArr? {
      return Ok("");
    }
    var items := history.items;
    var formatted: seq<string> := [];
    var i := 0;
    while i < |items|
      invariant 0 <= i <= |items|
      invariant Collect(TurnLine, items[..i]) == Ok(formatted)
    {
      var line := TurnLine(items[i]);
      assert items[..i + 1] == items[..i] + [items[i]];
      CollectSnoc(TurnLine, items[..i], items[i]);
      if line.Err? {
        ErrorIsFinal(TurnLine, items, i + 1);
        assert Lines(items) == Err(line.error);
        return Err(line.error);
      }
      if line.value.Some? {
        formatted := formatted + [line.value.value];
      }
      i := i + 1;
    }
    assert items[..i] == items;
    assert Lines(items) == Ok(formatted);
    r := Ok(Join(formatted, "\n"));
  }

  // ---------------------------------------------------------------------
  // The collecting loop, for any step.

  /** One more record at the end: the loop's last pass. */
  lemma CollectSnoc(step: Step, turns: seq<Json>, x: Json)
    ensures var earlier, line := Collect(step, turns), step(x);
            Collect(step, turns + [x]) ==
              if earlier.Err? then earlier
              else if line.Err? then Err(line.error)
              else if line.value.Some? then Ok(earlier.value + [line.value.value])
              else earlier
  {
    assert (turns + [x])[..|turns|] == turns;
  }

  /** Once a prefix of the records raises, the whole list raises the same. */
  lemma {:induction false} ErrorIsFinal(step: Step, turns: seq<Json>, k: nat)
    requires k <= |turns| && Collect(step, turns[..k]).Err?
    ensures Collect(step, turns) == Collect(step, turns[..k])
    decreases |turns| - k
  {
    if k < |turns| {
      var init := turns[..|turns| - 1];
      assert init[..k] == turns[..k];
      ErrorIsFinal(step, init, k);
    } else {
      assert turns[..k] == turns;
    }
  }

  ghost predicate NoneRaise(step: Step, turns: seq<Json>)
  {
    forall p | 0 <= p < |turns| :: step(turns[p]).Ok?
  }

  /** The loop raises exactly when some record raises, and then it raises
      what the first such record raises. */
  lemma {:induction false} CollectRaisesAtFirst(step: Step, turns: seq<Json>)
    ensures Collect(step, turns).Err? <==> !NoneRaise(step, turns)
    ensures forall p | 0 <= p < |turns| && step(turns[p]).Err? && NoneRaise(step, turns[..p])
              :: Collect(step, turns) == Err(step(turns[p]).error)
  {
    if turns != [] {
      var n := |turns| - 1;
      var init := turns[..n];
      CollectRaisesAtFirst(step, init);
      assert forall p | 0 <= p < n :: init[p] == turns[p];
      forall p | 0 <= p < |turns| && step(turns[p]).Err? && NoneRaise(step, turns[..p])
        ensures Collect(step, turns) == Err(step(turns[p]).error)
      {
        if p < n {
          assert init[..p] == turns[..p];
        } else {
          assert turns[..p] == init;
        }
      }
    }
  }

  /** The positions of the records that contribute a line, in order. */
  ghost function Emitting(step: Step, turns: seq<Json>): seq<nat>
  {
    if turns == [] then []
    else
      var n := |turns| - 1;
      var line := step(turns[n]);
      if line.Ok? && line.value.Some? then Emitting(step, turns[..n]) + [n]
      else Emitting(step, turns[..n])
  }

  /** `Emitting` lists, in increasing order, exactly the positions whose
      record contributes a line. */
  lemma {:induction false} EmittingSelects(step: Step, turns: seq<Json>)
    ensures forall k | 0 <= k < |Emitting(step, turns)| :: Emitting(step, turns)[k] < |turns|
    ensures forall k, l | 0 <= k < l < |Emitting(step, turns)| ::
              Emitting(step, turns)[k] < Emitting(step, turns)[l]
    ensures forall p | 0 <= p < |turns| ::
              (step(turns[p]).Ok? && step(turns[p]).value.Some?) <==> p in Emitting(step, turns)
  {
    if turns != [] {
      var n := |turns| - 1;
      var init := turns[..n];
      EmittingSelects(step, init);
      var pos, pos0 := Emitting(step, turns), Emitting(step, init);
      forall p | 0 <= p < |turns|
        ensures (step(turns[p]).Ok? && step(turns[p]).value.Some?) <==> p in pos
      {
        if p < n {
          assert init[p] == turns[p];
          assert p in pos <==> p in pos0;
        }
      }
    }
  }

  /** When no record raises, the loop collects one line per emitting record. */
  lemma {:induction false} CollectCount(step: Step, turns: seq<Json>)
    requires NoneRaise(step, turns)
    ensures Collect(step, turns).Ok? && |Collect(step, turns).value| == |Emitting(step, turns)|
  {
    if turns != [] {
      var n := |turns| - 1;
      var init := turns[..n];
      assert forall p | 0 <= p < n :: init[p] == turns[p];
      CollectCount(step, init);
    }
  }

  /** ... and the `k`-th line is the one the `k`-th emitting record gives. */
  lemma {:induction false} CollectAt(step: Step, turns: seq<Json>, k: nat)
    requires NoneRaise(step, turns) && k < |Emitting(step, turns)|
    ensures Collect(step, turns).Ok? && k < |Collect(step, turns).value|
    ensures Emitting(step, turns)[k] < |turns|
    ensures var line := step(turns[Emitting(step, turns)[k]]);
            line.Ok? && line.value.Some? && Collect(step, turns).value[k] == line.value.value
  {
    CollectCount(step, turns);
    var n := |turns| - 1;
    var init := turns[..n];
    assert forall p | 0 <= p < n :: init[p] == turns[p];
    CollectCount(step, init);
    var pos0 := Emitting(step, init);
    if k < |pos0| {
      CollectAt(step, init, k);
      assert Emitting(step, turns)[k] == pos0[k];
    }
  }

  /** Every line a list of records yields starts with a speaker's prefix,
      if every line a single record yields does. */
  lemma {:induction false} CollectKeepsPrefix(step: Step, turns: seq<Json>)
    requires forall x :: step(x).Ok? && step(x).value.Some? ==> HasRolePrefix(step(x).value.value)
    requires Collect(step, turns).Ok?
    ensures forall k | 0 <= k < |Collect(step, turns).value| :: HasRolePrefix(Collect(step, turns).value[k])
  {
    if turns != [] {
      CollectKeepsPrefix(step, turns[..|turns| - 1]);
    }
  }

  // ---------------------------------------------------------------------
  // Properties of the formatter.

  /** The positions of the recognised records, in increasing order. */
  ghost function Positions(turns: seq<Json>): seq<nat>
  {
    Emitting(TurnLine, turns)
  }

  /** `idx` lists, in increasing order, exactly the positions of the
      recognised records of `turns`. */
  ghost predicate SelectsRecognised(idx: seq<nat>, turns: seq<Json>)
  {
    (forall k | 0 <= k < |idx| :: idx[k] < |turns|)
    && (forall k, l | 0 <= k < l < |idx| :: idx[k] < idx[l])
    && (forall p | 0 <= p < |turns| :: Recognised(turns[p]) <==> p in idx)
  }

  ghost predicate AllWellFormed(turns: seq<Json>)
  {
    forall p | 0 <= p < |turns| :: WellFormedTurn(turns[p])
  }

  /** A list of records raises exactly when one of them is malformed, and
      then it raises what the first malformed record raises. */
  lemma LinesRaiseAtFirstMalformed(turns: seq<Json>)
    ensures Lines(turns).Err? <==> !AllWellFormed(turns)
    ensures forall p | 0 <= p < |turns| && !WellFormedTurn(turns[p]) && AllWellFormed(turns[..p])
              :: Lines(turns) == Err(ErrorOf(turns[p]))
  {
    CollectRaisesAtFirst(TurnLine, turns);
    forall p | 0 <= p < |turns| && !WellFormedTurn(turns[p]) && AllWellFormed(turns[..p])
      ensures Lines(turns) == Err(ErrorOf(turns[p]))
    {
      assert forall q | 0 <= q < p :: turns[..p][q] == turns[q];
      assert NoneRaise(TurnLine, turns[..p]);
    }
  }

  /** Over well-formed records the lines are exactly those of the
      recognised records, one each, in input order. */
  lemma LinesKeepRecognisedInOrder(turns: seq<Json>)
    requires AllWellFormed(turns)
    ensures Lines(turns).Ok?
    ensures SelectsRecognised(Positions(turns), turns)
    ensures |Lines(turns).value| == |Positions(turns)|
    ensures forall k | 0 <= k < |Positions(turns)| ::
              Recognised(turns[Positions(turns)[k]])
              && Lines(turns).value[k] == LineOf(turns[Positions(turns)[k]])
  {
    assert NoneRaise(TurnLine, turns);
    EmittingSelects(TurnLine, turns);
    CollectCount(TurnLine, turns);
    forall k | 0 <= k < |Positions(turns)|
      ensures Recognised(turns[Positions(turns)[k]])
              && Lines(turns).value[k] == LineOf(turns[Positions(turns)[k]])
    {
      CollectAt(TurnLine, turns, k);
    }
  }

  /** A line starts with the prefix of a speaker. */
  predicate HasRolePrefix(line: string)
  {
    (|line| >= 6 && line[..6] == "User: ") || (|line| >= 4 && line[..4] == "AI: ")
  }

  /** Every produced line starts with `User: ` or `AI: `. */
  lemma LinesArePrefixed(turns: seq<Json>)
    requires Lines(turns).Ok?
    ensures forall k | 0 <= k < |Lines(turns).value| :: HasRolePrefix(Lines(turns).value[k])
  {
    forall x | TurnLine(x).Ok? && TurnLine(x).value.Some?
      ensures HasRolePrefix(TurnLine(x).value.value)
    {
      assert WellFormedTurn(x) && Recognised(x);
      LineOfIsPrefixed(x);
    }
    CollectKeepsPrefix(TurnLine, turns);
  }

  lemma LineOfIsPrefixed(msg: Json)
    requires Recognised(msg)
    ensures HasRolePrefix(LineOf(msg))
  {
    var content := Strip(TextField(msg, "content"));
    match RoleSpeaker(LowerString(TextField(msg, "role"))).value
    case User => assert LineOf(msg) == "User: " + content;
    case AI => assert LineOf(msg) == "AI: " + content;
  }

  /** A history that is not a list formats to the empty text. */
  lemma NonListFormatsEmpty(history: Json)
    requires !history.JArr?
    ensures FormatHistory(history) == Ok("")
  {
  }

  /** The formatted text is empty exactly when no record is recognised. */
  lemma FormattedEmptyIffNoneRecognised(items: seq<Json>)
    requires FormatHistory(JArr(items)).Ok?
    ensures FormatHistory(JArr(items)).value == "" <==> forall p | 0 <= p < |items| :: !Recognised(items[p])
  {
    LinesRaiseAtFirstMalformed(items);
    LinesKeepRecognisedInOrder(items);
    LinesArePrefixed(items);
    var lines := Lines(items).value;
    if lines != [] {
      JoinStartsWithFirst(lines, "\n");
      assert lines[0] != [];
      assert Recognised(items[Positions(items)[0]]);
    } else {
      assert Positions(items) == [];
    }
  }

  lemma {:induction false} JoinStartsWithFirst(lines: seq<string>, sep: string)
    requires lines != []
    ensures |Join(lines, sep)| >= |lines[0]| && Join(lines, sep)[..|lines[0]|] == lines[0]
  {
  }

  // ---------------------------------------------------------------------
  // Joining and splitting.

  /** `s.split("\n")` */
  function SplitLines(s: string): (r: seq<string>)
    ensures |r| >= 1
  {
    if s == [] then [""]
    else
      var rest := SplitLines(s[1..]);
      if s[0] == '\n' then [""] + rest else [[s[0]] + rest[0]] + rest[1..]
  }

  lemma {:induction false} SplitSingle(a: string)
    requires '\n' !in a
    ensures SplitLines(a) == [a]
  {
    if a != [] {
      SplitSingle(a[1..]);
      assert [a[0]] + a[1..] == a;
    }
  }

  lemma {:induction false} SplitAtFirstNewline(a: string, b: string)
    requires '\n' !in a
    ensures SplitLines(a + "\n" + b) == [a] + SplitLines(b)
  {
    if a == [] {
      assert a + "\n" + b == "\n" + b;
    } else {
      assert (a + "\n" + b)[1..] == a[1..] + "\n" + b;
      SplitAtFirstNewline(a[1..], b);
      assert [a[0]] + a[1..] == a;
    }
  }

  /** Splitting the joined text on newlines gives the lines back, provided
      there is at least one line and no line holds a newline of its own. */
  lemma {:induction false} SplitJoin(lines: seq<string>)
    requires lines != []
    requires forall k | 0 <= k < |lines| :: '\n' !in lines[k]
    ensures SplitLines(Join(lines, "\n")) == lines
  {
    if |lines| == 1 {
      SplitSingle(lines[0]);
    } else {
      SplitJoin(lines[1..]);
      SplitAtFirstNewline(lines[0], Join(lines[1..], "\n"));
      assert [lines[0]] + lines[1..] == lines;
    }
  }

  /** When no recognised record's content holds an inner newline, the
      formatted text has one newline-separated line per recognised record,
      in input order; with no recognised record it is empty. */
  lemma OneTextLinePerRecognisedTurn(items: seq<Json>)
    requires forall p | 0 <= p < |items| :: WellFormedTurn(items[p])
    requires forall p | 0 <= p < |items| && Recognised(items[p]) :: '\n' !in LineOf(items[p])
    ensures FormatHistory(JArr(items)).Ok?
    ensures var text := FormatHistory(JArr(items)).value;
            var pos := Positions(items);
            (text == "" <==> pos == [])
            && (pos != [] ==>
                  && |SplitLines(text)| == |pos|
                  && forall k | 0 <= k < |pos| ::
                       pos[k] < |items| && Recognised(items[pos[k]])
                       && SplitLines(text)[k] == LineOf(items[pos[k]]))
  {
    LinesKeepRecognisedInOrder(items);
    FormattedEmptyIffNoneRecognised(items);
    var lines := Lines(items).value;
    var pos := Positions(items);
    if pos != [] {
      assert forall k | 0 <= k < |lines| :: lines[k] == LineOf(items[pos[k]]);
      SplitJoin(lines);
    } else {
      assert forall p | 0 <= p < |items| :: !Recognised(items[p]);
    }
  }
}
