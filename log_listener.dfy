/**
 * The prototype log listener (`queue_handler.py` at the repository root):
 * it reads fields 3 and 4, classifies the line and prints a label. It
 * consumes with `auto_ack=False` and never acks.
 */
module LogListener {
  import opened Wrappers
  import opened PyStr
  import opened LinePatterns

  /** The labels printed for a line of kind `k`. */
  function Labels(k: LineKind): seq<string>
  {
    match k
    case Deposit(readme) => ["deposit"] + (if readme then ["readme"] else [])
    case Deletion => ["delete"]
    case Mkdir => ["mkdir"]
    case Rmdir => ["rmdir"]
    case Symlink => ["symlink"]
    case Unmatched => []
  }

  /** The labels `callback` prints, or the IndexError of a short line. */
  function Callback(body: string): Result<seq<string>>
  {
    var splitLine := Split(Strip(body), ':');
    if |splitLine| < 5 then Err(IndexError) else Ok(Labels(Classify(body)))
  }

  /** At most one action label, `readme` only after `deposit`, and no label only for an unmatched line. */
  lemma LabelsOfKind(k: LineKind)
    ensures |Labels(k)| <= 2
    ensures "readme" in Labels(k) ==> Labels(k) == ["deposit", "readme"]
    ensures Labels(k) == [] <==> k == Unmatched
  {
    if k.Deposit? && !k.readme {
      assert Labels(k) == ["deposit"];
    }
  }

  /**
   * At most one action label is printed, `readme` only after `deposit`, and
   * a label is printed exactly when one of the five patterns matches; a line
   * with fewer than five fields fails with IndexError.
   */
  lemma LabelsFollowPatterns(body: string)
    ensures Callback(body).Err? <==> Count(Strip(body), ':') < 4
    ensures Callback(body).Err? ==> Callback(body).error == IndexError
    ensures Callback(body).Ok? ==>
      var labels := Callback(body).value;
      && |labels| <= 2
      && ("readme" in labels ==> labels == ["deposit", "readme"])
      && (labels == [] <==> Classify(body) == Unmatched)
  {
    SplitLength(Strip(body), ':');
    LabelsOfKind(Classify(body));
  }
}
