/** `compact_history_if_needed`: the older part of a conversation leaves as a summary, cut before a user turn. */
module History {

  datatype Message = Message(role: string, content: string)

  predicate IsUser(m: Message) {
    m.role == "user"
  }

  /** The first user turn at or after `target`. */
  ghost predicate FirstUserFrom(messages: seq<Message>, target: int, cut: int) {
    && 0 <= target <= cut < |messages| && IsUser(messages[cut])
    && forall i :: target <= i < cut ==> !IsUser(messages[i])
  }

  /** The last user turn before `target` and above index 1, where none follows. */
  ghost predicate LastUserBefore(messages: seq<Message>, target: int, cut: int) {
    && 2 <= cut < target && cut < |messages| && IsUser(messages[cut])
    && forall i :: cut < i < |messages| ==> !IsUser(messages[i])
  }

  ghost predicate NoUserAbove(messages: seq<Message>, low: int) {
    forall i :: low < i < |messages| && i >= 0 ==> !IsUser(messages[i])
  }

  /** `_find_safe_cut_index` */
  method FindSafeCutIndex(messages: seq<Message>, targetDropCount: int) returns (cut: int)
    ensures var target := if targetDropCount > 0 then 1 + targetDropCount else 1;
            && (cut > 1 ==> FirstUserFrom(messages, target, cut) || LastUserBefore(messages, target, cut))
            && (cut <= 1 ==> cut == 1 && (targetDropCount <= 0 || NoUserAbove(messages, 1)))
  {
    var n := |messages|;
    if n <= 1 { return 1; }
    var target := 1 + if targetDropCount > 0 then targetDropCount else 0;
    if target > n { target := n; }
    if target <= 1 { return 1; }
    if target < n && IsUser(messages[target]) { return target; }
    cut := target;
    while cut < n
      invariant target <= cut <= n
      invariant forall i :: target <= i < cut ==> !IsUser(messages[i])
    {
      if IsUser(messages[cut]) { return cut; }
      cut := cut + 1;
    }
    cut := if target < n - 1 then target else n - 1;
    while cut > 1
      invariant 1 <= cut < n
      invariant forall i :: cut < i < n ==> !IsUser(messages[i])
    {
      if IsUser(messages[cut]) { return cut; }
      cut := cut - 1;
    }
    return 1;
  }

  /** How many turns are kept when the history is over its limit. */
  function KeepRecent(limit: int): int {
    if limit / 2 > 1 then limit / 2 else 1
  }

  class Conversation {
    var messages: seq<Message>
    var summary: string

    /** Where the cut was made, if one was: the contract of the last compaction. */
    twostate predicate CutAt(limit: int, summarize: (string, seq<Message>) -> string, cut: int)
      reads this
    {
      var target := |old(messages)| - if limit >= 4 then limit / 2 else 1;
      && (FirstUserFrom(old(messages), target, cut) || LastUserBefore(old(messages), target, cut))
      && 1 < cut < |old(messages)| && old(messages)[cut].role == "user"
      && messages == [old(messages)[0]] + old(messages)[cut..]
      && old(messages) == [messages[0]] + old(messages)[1..cut] + messages[1..]
      && summary == summarize(old(summary), old(messages)[1..cut])
    }

    /**
     The history is left alone exactly when it is within the limit or has no user turn past index 1.
     Otherwise the system message stays, everything up to the cut goes into the summary, what is kept
     begins with a user turn, and the three parts in order are the whole history.
     */
    method CompactIfNeeded(limit: int, summarize: (string, seq<Message>) -> string) returns (ghost cut: int)
      modifies this
      ensures cut <= 1 <==> |old(messages)| - 1 <= limit || NoUserAbove(old(messages), 1)
      ensures cut <= 1 ==> messages == old(messages) && summary == old(summary)
      ensures cut > 1 ==> CutAt(limit, summarize, cut)
    {
      if |messages| <= 1 { return 1; }
      var turns := |messages| - 1;
      if turns <= limit { return 1; }
      var targetDrop := turns - KeepRecent(limit);
      if targetDrop <= 0 { return 1; }
      var at := FindSafeCutIndex(messages, targetDrop);
      cut := at;
      if at <= 1 { return; }
      var dropped, kept := messages[1..at], messages[at..];
      summary := summarize(summary, dropped);
      messages := [messages[0]] + kept;
    }
  }

  /** A cut at or after the target keeps at most half the limit, or one turn. */
  lemma CutKeepsFew(messages: seq<Message>, limit: int, cut: int)
    requires FirstUserFrom(messages, |messages| - KeepRecent(limit), cut)
    ensures |messages[cut..]| <= KeepRecent(limit)
    ensures limit >= 2 ==> 2 * |messages[cut..]| <= limit
  {}

  /** The cut is determined by the history: the two rules cannot both apply, and each names one index. */
  lemma CutIsUnique(messages: seq<Message>, target: int, a: int, b: int)
    requires FirstUserFrom(messages, target, a) || LastUserBefore(messages, target, a)
    requires FirstUserFrom(messages, target, b) || LastUserBefore(messages, target, b)
    ensures a == b
  {
    assert IsUser(messages[a]) && IsUser(messages[b]);
  }
}
