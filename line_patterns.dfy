/**
 * The regular expressions the line-based consumers classify a raw log line
 * with: `^\d{4}[-](\d{2})[-]\d{2}.*:ACTION:` for each action, and
 * `^\d{4}[-](\d{2})[-]\d{2}.*00README:` for a README deposit. `re.match`
 * anchors at the start; `.*` matches any run of characters other than a
 * newline, so a pattern matches when the date prefix is followed, on the
 * same line, by the tag.
 */
module LinePatterns {
  import opened QueueHandler

  predicate IsDigit(c: char) {
    '0' <= c <= '9'
  }

  /** `\d{4}[-]\d{2}[-]\d{2}` at the start of `s`. */
  predicate DatePrefix(s: string) {
    |s| >= 10
    && IsDigit(s[0]) && IsDigit(s[1]) && IsDigit(s[2]) && IsDigit(s[3]) && s[4] == '-'
    && IsDigit(s[5]) && IsDigit(s[6]) && s[7] == '-' && IsDigit(s[8]) && IsDigit(s[9])
  }

  predicate OccursAt(s: string, tag: string, i: nat) {
    i + |tag| <= |s| && s[i..i + |tag|] == tag
  }

  /** The regex semantics: the date prefix, then `tag` at some `i` with no newline in between. */
  ghost predicate MatchesAt(s: string, tag: string) {
    DatePrefix(s) && exists i: nat :: 10 <= i && OccursAt(s, tag, i) && '\n' !in s[10..i]
  }

  /** Scan forward from `i` for `tag`, stopping at a newline. */
  function FindFrom(s: string, tag: string, i: nat): bool
    requires i <= |s|
    decreases |s| - i
  {
    if OccursAt(s, tag, i) then true
    else if i == |s| || s[i] == '\n' then false
    else FindFrom(s, tag, i + 1)
  }

  lemma {:induction false} FindFromSound(s: string, tag: string, i: nat)
    requires i <= |s|
    ensures FindFrom(s, tag, i) <==> exists j: nat :: i <= j && OccursAt(s, tag, j) && '\n' !in s[i..j]
    decreases |s| - i
  {
    if OccursAt(s, tag, i) {
      assert s[i..i] == [];
    } else if i == |s| || s[i] == '\n' {
      forall j: nat | i <= j && OccursAt(s, tag, j)
        ensures '\n' in s[i..j]
      {
        if j == i {
        } else {
          assert s[i..j][0] == s[i];
        }
      }
    } else {
      FindFromSound(s, tag, i + 1);
      forall j: nat | i <= j && OccursAt(s, tag, j) && '\n' !in s[i..j]
        ensures i + 1 <= j && '\n' !in s[i + 1..j]
      {
        assert j != i;
        assert s[i + 1..j] == s[i..j][1..];
      }
      forall j: nat | i + 1 <= j && OccursAt(s, tag, j) && '\n' !in s[i + 1..j]
        ensures '\n' !in s[i..j]
      {
        assert s[i..j] == [s[i]] + s[i + 1..j];
      }
    }
  }

  /** `pattern.match(s)` for the pattern ending in `tag`. */
  predicate Matches(s: string, tag: string) {
    DatePrefix(s) && FindFrom(s, tag, 10)
  }

  /** The scanner decides exactly the regex semantics. */
  lemma MatchesIff(s: string, tag: string)
    ensures Matches(s, tag) <==> MatchesAt(s, tag)
  {
    if DatePrefix(s) {
      FindFromSound(s, tag, 10);
    }
  }

  datatype LineKind = Deposit(readme: bool) | Deletion | Mkdir | Rmdir | Symlink | Unmatched

  /** The `if`/`elif` chain: first match in the order deposit, deletion, mkdir, rmdir, symlink. */
  function Classify(body: string): (k: LineKind)
    ensures k.Deposit? <==> Matches(body, ":DEPOSIT:")
    ensures k.Deposit? ==> (k.readme <==> Matches(body, "00README:"))
    ensures k == Deletion <==> !Matches(body, ":DEPOSIT:") && Matches(body, ":REMOVE:")
    ensures k == Mkdir <==> !Matches(body, ":DEPOSIT:") && !Matches(body, ":REMOVE:") && Matches(body, ":MKDIR:")
    ensures k == Rmdir <==>
      !Matches(body, ":DEPOSIT:") && !Matches(body, ":REMOVE:") && !Matches(body, ":MKDIR:") && Matches(body, ":RMDIR:")
    ensures k == Unmatched <==>
      !Matches(body, ":DEPOSIT:") && !Matches(body, ":REMOVE:") && !Matches(body, ":MKDIR:")
      && !Matches(body, ":RMDIR:") && !Matches(body, ":SYMLINK:")
  {
    if Matches(body, ":DEPOSIT:") then Deposit(Matches(body, "00README:"))
    else if Matches(body, ":REMOVE:") then Deletion
    else if Matches(body, ":MKDIR:") then Mkdir
    else if Matches(body, ":RMDIR:") then Rmdir
    else if Matches(body, ":SYMLINK:") then Symlink
    else Unmatched
  }

  /** The handlers the chain calls, each with the path and action taken from the line. */
  function Route(k: LineKind, p: Payload, failing: set<Handler>): Outcome
  {
    match k
    case Deposit(readme) =>
      AndThen(Call(FbsHandler, p, failing), if readme then Call(DirectoryHandler, p, failing) else Nothing)
    case Deletion => Call(FbsHandler, p, failing)
    case Unmatched => Nothing
    case _ => Call(DirectoryHandler, p, failing)
  }

  /** The `if`/`elif` chain inside the `try`; reports whether a handler raised. */
  method RouteLine(log: EffectLog, body: string, p: Payload, failing: set<Handler>) returns (failed: bool)
    modifies log
    ensures log.effects == old(log.effects) + Route(Classify(body), p, failing).effects
    ensures failed == Route(Classify(body), p, failing).raised
  {
    failed := false;
    if Matches(body, ":DEPOSIT:") {
      failed := log.Process(FbsHandler, p, failing);
      if !failed && Matches(body, "00README:") {
        failed := log.Process(DirectoryHandler, p, failing);
      }
    } else if Matches(body, ":REMOVE:") {
      failed := log.Process(FbsHandler, p, failing);
    } else if Matches(body, ":MKDIR:") {
      failed := log.Process(DirectoryHandler, p, failing);
    } else if Matches(body, ":RMDIR:") {
      failed := log.Process(DirectoryHandler, p, failing);
    } else if Matches(body, ":SYMLINK:") {
      failed := log.Process(DirectoryHandler, p, failing);
    }
  }

  lemma RouteCounts(k: LineKind, p: Payload, failing: set<Handler>)
    ensures AckCount(Route(k, p, failing).effects) == 0
    ensures Invoked(Route(k, p, failing).effects) ==
      match k
      case Deposit(readme) =>
        if FbsHandler in failing || !readme then [FbsHandler] else [FbsHandler, DirectoryHandler]
      case Deletion => [FbsHandler]
      case Unmatched => []
      case _ => [DirectoryHandler]
  {
    var f := Call(FbsHandler, p, failing);
    var d := Call(DirectoryHandler, p, failing);
    CountsSingle(f.effects[0]);
    CountsSingle(d.effects[0]);
    CountsAppend(f.effects, d.effects);
  }

  /**
   * A line that starts with a date and carries `:ACTION:` as a whole field
   * before any newline matches that action's pattern.
   */
  lemma FieldMatches(pre: string, action: string, post: string)
    requires DatePrefix(pre) && '\n' !in pre
    ensures Matches(pre + ":" + action + ":" + post, ":" + action + ":")
  {
    var s := pre + ":" + action + ":" + post;
    var tag := ":" + action + ":";
    assert s[..10] == pre[..10];
    assert OccursAt(s, tag, |pre|) by {
      assert s[|pre|..|pre| + |tag|] == tag;
    }
    assert s[10..|pre|] == pre[10..];
    MatchesIff(s, tag);
  }
}
