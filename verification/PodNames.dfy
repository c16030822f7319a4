/** Finding the deployment of a pod by its name (utils/utils.go). */
module PodNames {
  import opened Wrappers
  import opened Text

  /** Cut off the last two hyphened sections. */
  function DeploymentName(podName: string): Result<string> {
    var i := LastIndex(podName, '-');
    if i == -1 then Err("invalid pod name")
    else
      var j := LastIndex(podName[..i], '-');
      if j == -1 then Err("invalid pod name") else Ok(podName[..j])
  }

  method DeploymentNameFromPodName(podName: string) returns (r: Result<string>)
    ensures r == DeploymentName(podName)
  {
    var i := LastIndex(podName, '-');
    if i == -1 {
      return Err("invalid pod name");
    }
    i := LastIndex(podName[0..i], '-');
    if i == -1 {
      return Err("invalid pod name");
    }
    return Ok(podName[0..i]);
  }

  /** The name a deployment gives its pods. */
  function PodName(deployment: string, hash: string, uid: string): string {
    deployment + "-" + hash + "-" + uid
  }

  lemma LastHyphen(s: string, prefix: string, suffix: string)
    requires s == prefix + "-" + suffix && '-' !in suffix
    ensures LastIndex(s, '-') == |prefix|
  {
    var i := LastIndex(s, '-');
    assert s[|prefix|] == '-';
    assert forall k :: |prefix| < k < |s| ==> s[k] in suffix;
  }

  /** The parser inverts the naming; the deployment's own name may contain hyphens. */
  lemma ParserInvertsNaming(deployment: string, hash: string, uid: string)
    requires '-' !in hash && '-' !in uid
    ensures DeploymentName(PodName(deployment, hash, uid)) == Ok(deployment)
  {
    var s, front := PodName(deployment, hash, uid), deployment + "-" + hash;
    assert s == front + "-" + uid;
    LastHyphen(s, front, uid);
    assert s[..|front|] == front;
    LastHyphen(front, deployment, hash);
    assert s[..|deployment|] == deployment;
  }

  /** It fails exactly on names with fewer than two hyphens. */
  lemma FailsExactlyBelowTwoHyphens(podName: string)
    ensures DeploymentName(podName).Err? <==> multiset(podName)['-'] < 2
  {
    var i := LastIndex(podName, '-');
    if i == -1 {
      assert '-' !in podName;
    } else {
      var front, back := podName[..i], podName[i + 1..];
      assert podName == front + ["-"[0]] + back;
      assert '-' !in back;
      assert multiset(podName)['-'] == multiset(front)['-'] + 1;
      var j := LastIndex(front, '-');
      if j == -1 {
        assert '-' !in front;
      } else {
        assert front[j] in front;
      }
    }
  }

  /** Every accepted name is the name of a pod of the result, in exactly one way. */
  lemma AcceptedNamesDecompose(podName: string)
    requires DeploymentName(podName).Ok?
    ensures exists hash, uid ::
              '-' !in hash && '-' !in uid && podName == PodName(DeploymentName(podName).value, hash, uid)
  {
    var i := LastIndex(podName, '-');
    var j := LastIndex(podName[..i], '-');
    var hash, uid := podName[j + 1..i], podName[i + 1..];
    assert podName == PodName(podName[..j], hash, uid);
  }

  lemma DecompositionIsUnique(d1: string, h1: string, u1: string, d2: string, h2: string, u2: string)
    requires '-' !in h1 && '-' !in u1 && '-' !in h2 && '-' !in u2
    requires PodName(d1, h1, u1) == PodName(d2, h2, u2)
    ensures d1 == d2 && h1 == h2 && u1 == u2
  {
    ParserInvertsNaming(d1, h1, u1);
    ParserInvertsNaming(d2, h2, u2);
    var s := PodName(d1, h1, u1);
    LastHyphen(s, d1 + "-" + h1, u1);
    LastHyphen(s, d2 + "-" + h2, u2);
    assert s == (d1 + "-" + h1) + "-" + u1 && s == (d2 + "-" + h2) + "-" + u2;
    assert s[|d1| + 1..|d1| + 1 + |h1|] == h1 && s[|d2| + 1..|d2| + 1 + |h2|] == h2;
    assert s[|d1| + |h1| + 2..] == u1 && s[|d2| + |h2| + 2..] == u2;
  }
}
