/**
 How much history goes to the model: the newest messages that meet both a count and a character
 budget. Used by `_format_history` (app/services/message_service.py) and by `inherited_history`
 (app/services/branch_context_service.py).
 */
module HistoryBudget {
  import opened MessageRows
  import opened Sequences
  import opened Text

  /** One message as the model gets it. */
  datatype Turn = Turn(role: Sender, content: string, conversation: nat, messageId: nat)

  function Chars(ts: seq<Turn>): nat {
    if ts == [] then 0 else Chars(ts[..|ts| - 1]) + |ts[|ts| - 1].content|
  }

  predicate Fits(ts: seq<Turn>, maxTurns: nat, maxChars: nat) {
    |ts| <= maxTurns && Chars(ts) <= maxChars
  }

  /** The longest beginning of a list that meets both budgets. */
  function LongestFitting(ts: seq<Turn>, maxTurns: nat, maxChars: nat): (r: seq<Turn>)
    ensures r <= ts && Fits(r, maxTurns, maxChars)
  {
    if Fits(ts, maxTurns, maxChars) then ts
    else
      assert ts != [];
      LongestFitting(ts[..|ts| - 1], maxTurns, maxChars)
  }

  lemma {:induction false} CharsGrow(a: seq<Turn>, b: seq<Turn>)
    requires a <= b
    ensures Chars(a) <= Chars(b)
    decreases |b|
  {
    if |a| < |b| {
      CharsGrow(a, b[..|b| - 1]);
    } else {
      assert a == b;
    }
  }

  /** Nothing that fits is longer. */
  lemma {:induction false} LongestIsMaximal(ts: seq<Turn>, maxTurns: nat, maxChars: nat, q: seq<Turn>)
    requires q <= ts && Fits(q, maxTurns, maxChars)
    ensures q <= LongestFitting(ts, maxTurns, maxChars)
  {
    if !Fits(ts, maxTurns, maxChars) {
      assert |q| == |ts| ==> q == ts;
      LongestIsMaximal(ts[..|ts| - 1], maxTurns, maxChars, q);
    }
  }

  /** What fits while one more does not is the longest. */
  lemma StopsAtLongest(ts: seq<Turn>, maxTurns: nat, maxChars: nat, p: seq<Turn>)
    requires p <= ts && Fits(p, maxTurns, maxChars)
    requires p == ts || !Fits(ts[..|p| + 1], maxTurns, maxChars)
    ensures LongestFitting(ts, maxTurns, maxChars) == p
  {
    var r := LongestFitting(ts, maxTurns, maxChars);
    LongestIsMaximal(ts, maxTurns, maxChars, p);
    if |p| < |r| {
      CharsGrow(ts[..|p| + 1], r);
    }
  }

  /** `_usable`: finished user or assistant text. */
  predicate Usable(m: Row) {
    (m.sender == User || m.sender == Assistant) && m.status == Sent && Strip(m.content) != []
  }

  function TurnOf(conversation: nat, m: Row, maxLength: nat): Turn {
    Turn(m.sender, Clip(Strip(m.content), maxLength), conversation, m.id)
  }

  /** The usable messages of a list, as turns. */
  function UsableTurns(conversation: nat, rows: seq<Row>, maxLength: nat): seq<Turn> {
    if rows == [] then []
    else
      var last := rows[|rows| - 1];
      UsableTurns(conversation, rows[..|rows| - 1], maxLength) +
        (if Usable(last) then [TurnOf(conversation, last, maxLength)] else [])
  }

  lemma UsableStep(conversation: nat, rows: seq<Row>, i: nat, maxLength: nat)
    requires i < |rows|
    ensures UsableTurns(conversation, rows[..i + 1], maxLength) ==
              UsableTurns(conversation, rows[..i], maxLength) +
                (if Usable(rows[i]) then [TurnOf(conversation, rows[i], maxLength)] else [])
  {
    assert rows[..i + 1][..i] == rows[..i];
  }

  lemma {:induction false} UsableGrow(conversation: nat, rows: seq<Row>, i: nat, maxLength: nat)
    requires i <= |rows|
    ensures UsableTurns(conversation, rows[..i], maxLength) <= UsableTurns(conversation, rows, maxLength)
    decreases |rows| - i
  {
    if i < |rows| {
      UsableStep(conversation, rows, i, maxLength);
      UsableGrow(conversation, rows, i + 1, maxLength);
    } else {
      assert rows[..i] == rows;
    }
  }

  /** One more usable message does not fit, so what was picked is the longest. */
  lemma OneMoreIsTooMany(conversation: nat, rows: seq<Row>, i: nat, maxLength: nat, maxTurns: nat, maxChars: nat)
    requires i < |rows| && Usable(rows[i])
    requires var p := UsableTurns(conversation, rows[..i], maxLength);
             Fits(p, maxTurns, maxChars) &&
             (|p| == maxTurns || Chars(p) + |TurnOf(conversation, rows[i], maxLength).content| > maxChars)
    ensures LongestFitting(UsableTurns(conversation, rows, maxLength), maxTurns, maxChars) ==
              UsableTurns(conversation, rows[..i], maxLength)
  {
    var p := UsableTurns(conversation, rows[..i], maxLength);
    var all := UsableTurns(conversation, rows, maxLength);
    var turn := TurnOf(conversation, rows[i], maxLength);
    UsableStep(conversation, rows, i, maxLength);
    UsableGrow(conversation, rows, i + 1, maxLength);
    UsableGrow(conversation, rows, i, maxLength);
    assert all[..|p| + 1] == p + [turn];
    assert (p + [turn])[..|p|] == p;
    StopsAtLongest(all, maxTurns, maxChars, p);
  }

  /** As many as allowed: the rest does not matter. */
  lemma FullIsLongest(conversation: nat, rows: seq<Row>, i: nat, maxLength: nat, maxTurns: nat, maxChars: nat)
    requires i <= |rows|
    requires var p := UsableTurns(conversation, rows[..i], maxLength);
             Fits(p, maxTurns, maxChars) && (|p| == maxTurns || i == |rows|)
    ensures LongestFitting(UsableTurns(conversation, rows, maxLength), maxTurns, maxChars) ==
              UsableTurns(conversation, rows[..i], maxLength)
  {
    UsableGrow(conversation, rows, i, maxLength);
    if i == |rows| {
      assert rows[..i] == rows;
    }
    StopsAtLongest(UsableTurns(conversation, rows, maxLength), maxTurns, maxChars, UsableTurns(conversation, rows[..i], maxLength));
  }

  const EVENT_MAX_MESSAGES := 10
  const EVENT_MAX_MESSAGE_CHARS := 2000
  const EVENT_MAX_CHARS := 8000

  /**
   `_format_history`: the newest usable messages that fit, oldest first. The loop stops at the first
   one that does not.
   */
  method FormatHistory(conversation: nat, newestFirst: seq<Row>) returns (picked: seq<Turn>)
    ensures var usable := UsableTurns(conversation, newestFirst, EVENT_MAX_MESSAGE_CHARS);
            picked == Reversed(LongestFitting(usable, EVENT_MAX_MESSAGES, EVENT_MAX_CHARS))
  {
    hide LongestFitting, UsableTurns, Strip, Clip;
    picked := [];
    var budget := EVENT_MAX_CHARS;
    NoTurns(conversation, newestFirst[..0], EVENT_MAX_MESSAGE_CHARS);
    for i := 0 to |newestFirst|
      invariant picked == UsableTurns(conversation, newestFirst[..i], EVENT_MAX_MESSAGE_CHARS)
      invariant budget == EVENT_MAX_CHARS - Chars(picked) && budget >= 0 && |picked| < EVENT_MAX_MESSAGES
    {
      var m := newestFirst[i];
      UsableStep(conversation, newestFirst, i, EVENT_MAX_MESSAGE_CHARS);
      if (m.sender != User && m.sender != Assistant) || m.status != Sent || Strip(m.content) == [] {
        continue;
      }
      var text := Clip(Strip(m.content), EVENT_MAX_MESSAGE_CHARS);
      var turn := Turn(m.sender, text, conversation, m.id);
      assert (picked + [turn])[..|picked|] == picked;
      if budget - |text| < 0 && picked != [] {
        OneMoreIsTooMany(conversation, newestFirst, i, EVENT_MAX_MESSAGE_CHARS, EVENT_MAX_MESSAGES, EVENT_MAX_CHARS);
        picked := Reversed(picked);
        return;
      }
      budget := budget - |text|;
      picked := picked + [turn];
      if |picked| >= EVENT_MAX_MESSAGES {
        FullIsLongest(conversation, newestFirst, i + 1, EVENT_MAX_MESSAGE_CHARS, EVENT_MAX_MESSAGES, EVENT_MAX_CHARS);
        picked := Reversed(picked);
        return;
      }
    }
    FullIsLongest(conversation, newestFirst, |newestFirst|, EVENT_MAX_MESSAGE_CHARS, EVENT_MAX_MESSAGES, EVENT_MAX_CHARS);
    picked := Reversed(picked);
  }

  lemma NoTurns(conversation: nat, rows: seq<Row>, maxLength: nat)
    requires rows == []
    ensures UsableTurns(conversation, rows, maxLength) == []
  {
  }
}
