/**
  The messages telepresence fails with, through `runner.fail`, while it
  sets up: each kind of failure as a value, and the text the user sees for
  it.  Keeping the kind apart from its text lets the rest of the model
  talk about which failure happens without spelling the text out.
*/
module Messages {
  import opened Text

  datatype Message =
    | NeitherTool
    | NoContext(root: bool)
    | NoCluster
    | NoNamespace(namespace: string)
    | NoServer
    | ClusterAccessFailed
    | AccessError(description: string)
    | DnsLookupFailed(targets: seq<string>)
  {
    /** The text of the message, as the user sees it. */
    function Text(): string
    {
      match this
      case NeitherTool => "Found neither 'kubectl' nor 'oc' in your $PATH."
      case NoContext(root) =>
        "No current-context set. Please use the --context option to explicitly set the context.\n"
        + (if root then SudoHint else "")
      case NoCluster => "Error: Unable to find cluster information"
      case NoNamespace(namespace) => "Error: Namespace '" + namespace + "' does not exist"
      case NoServer => "Error: Unable to find server information"
      case ClusterAccessFailed => "Cluster access failed"
      case AccessError(description) => "Unexpected error accessing Kubernetes: " + description + "\n"
      case DnsLookupFailed(targets) =>
        "We failed to do a DNS lookup inside Kubernetes for the hostname(s) you listed in --also-proxy ("
        + Join(targets, ", ") + "). Maybe you mistyped one of them?"
    }
  }

  const SudoHint := "Sudo user detected. We can't find a context and maybe that's because we're running as root. Try running without sudo."

  /** The hint about sudo ends the no-context message exactly when running as root. */
  lemma SudoHintOnlyForRoot(root: bool)
    ensures var m := NoContext(root).Text();
      root <==> |m| > |SudoHint| && m[|m| - |SudoHint|..] == SudoHint
  {
    var m := NoContext(root).Text();
    var head := "No current-context set. Please use the --context option to explicitly set the context.\n";
    if root {
      assert m == head + SudoHint;
      assert m[|m| - |SudoHint|..] == SudoHint;
    } else {
      assert m == head;
    }
  }

  /** An unexpected error is told apart from a refused cluster by its text. */
  lemma AccessErrorIsNotClusterAccess(description: string)
    ensures AccessError(description).Text() != ClusterAccessFailed.Text()
  {
    assert AccessError(description).Text()[0] == 'U';
  }
}
