/** The node status endpoint: the local node's status and its registered kubelet taints. */
module NodeApi {
  import opened Common
  import opened ApiTypes

  /**
   * The reading of a kubelet service argument: its value, an error that wraps
   * `os.ErrNotExist` (the argument is not set), or any other error.
   */
  datatype ArgumentRead = Found(value: string) | NotExist | ReadFailed(error: string)

  /** The number of occurrences of `c` in `s`. */
  function CountChar(s: string, c: char): nat
  {
    if |s| == 0 then 0 else (if s[0] == c then 1 else 0) + CountChar(s[1..], c)
  }

  /** `strings.Split(s, sep)` for a one-character separator: the pieces between the separators. */
  function Split(s: string, sep: char): (r: seq<string>)
    ensures |r| == CountChar(s, sep) + 1
    ensures forall k :: 0 <= k < |r| ==> sep !in r[k]
  {
    if |s| == 0 then [""]
    else
      var rest := Split(s[1..], sep);
      if s[0] == sep then [""] + rest
      else
        assert sep !in [s[0]] + rest[0];
        [[s[0]] + rest[0]] + rest[1..]
  }

  /** `strings.Join(pieces, sep)` for a non-empty list and a one-character separator. */
  function Join(pieces: seq<string>, sep: char): (r: string)
    requires |pieces| >= 1
    ensures |r| >= |pieces[0]| && r[..|pieces[0]|] == pieces[0]
    ensures |pieces| > 1 ==> |r| > |pieces[0]| && r[|pieces[0]|] == sep
  {
    if |pieces| == 1 then pieces[0] else pieces[0] + [sep] + Join(pieces[1..], sep)
  }

  /** Joining the pieces with the separator gives the text back. */
  lemma {:induction false} JoinSplit(s: string, sep: char)
    ensures Join(Split(s, sep), sep) == s
    decreases |s|
  {
    if |s| > 0 {
      var rest := Split(s[1..], sep);
      JoinSplit(s[1..], sep);
      if s[0] == sep {
        assert Split(s, sep)[1..] == rest;
      } else {
        JoinConsHead(s[0], rest, sep);
      }
    }
  }

  lemma JoinConsHead(c: char, rest: seq<string>, sep: char)
    requires |rest| >= 1
    ensures Join([[c] + rest[0]] + rest[1..], sep) == [c] + Join(rest, sep)
  {
    var ps := [[c] + rest[0]] + rest[1..];
    if |rest| > 1 {
      assert ps[1..] == rest[1..];
    }
  }

  /** Splitting pieces that hold no separator after joining them gives the pieces back. */
  lemma {:induction false} SplitJoin(pieces: seq<string>, sep: char)
    requires |pieces| >= 1
    requires forall k :: 0 <= k < |pieces| ==> sep !in pieces[k]
    ensures Split(Join(pieces, sep), sep) == pieces
    decreases |pieces|, |pieces[0]|
  {
    var p := pieces[0];
    if |p| == 0 {
      if |pieces| > 1 {
        var j := Join(pieces[1..], sep);
        SplitJoin(pieces[1..], sep);
        assert Join(pieces, sep) == [sep] + j;
        assert ([sep] + j)[1..] == j;
      }
    } else {
      var tail := [p[1..]] + pieces[1..];
      assert forall k :: 0 <= k < |tail| ==> sep !in tail[k] by {
        assert forall k :: 1 <= k < |tail| ==> tail[k] == pieces[k];
        assert forall x :: x in p[1..] ==> x in p;
      }
      SplitJoin(tail, sep);
      var s := Join(pieces, sep);
      assert s == [p[0]] + Join(tail, sep) by {
        assert tail[1..] == pieces[1..];
        assert p == [p[0]] + p[1..];
      }
      assert s[1..] == Join(tail, sep);
      assert p[0] in p;
      assert [[p[0]] + tail[0]] + tail[1..] == pieces by {
        assert [p[0]] + p[1..] == p;
      }
    }
  }

  /**
   * `getNodeTaints`: the comma-separated `--register-with-taints` kubelet argument as a list.
   * None is Go's nil slice, returned when the argument is not set.
   */
  function GetNodeTaints(arg: ArgumentRead): (r: Result<Option<seq<string>>>)
    ensures arg.NotExist? ==> r == Ok(None)
    ensures arg.ReadFailed? ==> r == Err(Wrap("failed to get kubelet taints", arg.error))
    ensures arg.Found? ==>
      && r.Ok? && r.value.Some?
      && |r.value.value| == CountChar(arg.value, ',') + 1
      && Join(r.value.value, ',') == arg.value
      && (forall k :: 0 <= k < |r.value.value| ==> ',' !in r.value.value[k])
  {
    match arg
    case NotExist => Ok(None)
    case ReadFailed(e) => Err(Wrap("failed to get kubelet taints", e))
    case Found(v) =>
      JoinSplit(v, ',');
      Ok(Some(Split(v, ',')))
  }

  /** The response of the node status endpoint. */
  datatype NodeStatusResponse =
    | NodeStatusOk(status: NodeStatus, taints: Option<seq<string>>)
    | NodeStatusError(code: int, error: string)

  /**
   * `getNodeStatus`. `localStatus` is `GetLocalNodeStatus`'s answer and `taintsArg` the reading
   * of the kubelet taints argument.
   */
  function GetNodeStatus(localStatus: Result<NodeStatus>, taintsArg: ArgumentRead): (r: NodeStatusResponse)
    ensures r.NodeStatusError? <==> localStatus.Err? || taintsArg.ReadFailed?
    ensures r.NodeStatusError? ==> r.code == StatusInternalServerError
    ensures localStatus.Err? ==> r == NodeStatusError(StatusInternalServerError, localStatus.error)
    ensures r.NodeStatusOk? ==> r.status == localStatus.value && Ok(r.taints) == GetNodeTaints(taintsArg)
  {
    if localStatus.Err? then NodeStatusError(StatusInternalServerError, localStatus.error)
    else
      match GetNodeTaints(taintsArg)
      case Err(e) => NodeStatusError(StatusInternalServerError, Wrap("failed to get node taints", e))
      case Ok(taints) => NodeStatusOk(localStatus.value, taints)
  }
}
