/** The OVN/OVS part of the Configuration Rewriter (main.go:240-270). */
module Network {
  import opened Common
  import opened Text
  import opened StoragePools

  /** The answers of the local virtual-switch tooling. */
  datatype NetworkOracle = NetworkOracle(
    ovnRemote: Option<string>,                            // output of `ovs-vsctl get open_vswitch . external_ids:ovn-remote`
    ovnConvert: (string, string) -> Option<seq<Command>>, // ovnConvert(northbound, southbound)
    ovsConvert: Option<seq<Command>>)                     // ovsConvert()

  /** main.go:254: the ovs-vsctl output with every double quote removed,
      then trimmed of surrounding white space. */
  function Southbound(out: string): (sb: string)
    ensures '"' !in sb
    ensures sb == [] || (!IsSpace(sb[0]) && !IsSpace(sb[|sb| - 1]))
    ensures forall c :: c in sb ==> c in out
  {
    var t := Strip(out, '"');
    TrimSpaceWithin(t);
    TrimSpaceEnds(t);
    TrimSpace(t)
  }

  /** main.go:254 in full: the result is a slice of the output with its
      double quotes removed, and only white space lies outside the slice. */
  lemma SouthboundSlice(out: string) returns (i: nat, j: nat)
    ensures var t := Strip(out, '"');
      i <= j <= |t| && Southbound(out) == t[i..j]
      && (forall k :: 0 <= k < i ==> IsSpace(t[k]))
      && (forall k :: j <= k < |t| ==> IsSpace(t[k]))
  {
    i, j := TrimSpaceSlice(Strip(out, '"'));
  }

  lemma StripAbsent(s: string, c: char)
    requires c !in s
    ensures Strip(s, c) == s
  {
    if s != [] {
      assert c !in s[1..];
      StripAbsent(s[1..], c);
    }
  }

  lemma TrimLeftTrimmed(s: string)
    requires s == [] || !IsSpace(s[0])
    ensures TrimLeftFunc(s, IsSpace) == s
  {
  }

  lemma TrimRightTrimmed(s: string)
    requires s == [] || !IsSpace(s[|s| - 1])
    ensures TrimRightFunc(s, IsSpace) == s
  {
  }

  /** Cleaning an already clean address changes nothing. */
  lemma SouthboundIdempotent(out: string)
    ensures Southbound(Southbound(out)) == Southbound(out)
  {
    var sb := Southbound(out);
    StripAbsent(sb, '"');
    TrimLeftTrimmed(sb);
    TrimRightTrimmed(sb);
  }

  /** The commands the network part appends to rewriteCommands: nothing
      without a northbound connection; otherwise, on a non-member run, the
      OVN conversion for the cleaned southbound address, and on every run the
      OVS conversion after it. */
  function NetworkCommands(member: bool, northbound: string, net: NetworkOracle): (r: Result<seq<Command>>)
    ensures northbound == "" ==> r == Ok([])
    ensures member && northbound != "" ==>
      r == (if net.ovsConvert.Some? then Ok(net.ovsConvert.value) else Err(OvsPrepare))
    ensures r.Err? ==> r.failure in {OvnSouthbound, OvnPrepare, OvsPrepare}
  {
    if northbound == "" then Ok([])
    else
      var ovn: Result<seq<Command>> :=
        if member then Ok([])
        else match net.ovnRemote
          case None => Err(OvnSouthbound)
          case Some(out) =>
            match net.ovnConvert(northbound, Southbound(out))
            case None => Err(OvnPrepare)
            case Some(cmds) => Ok(cmds);
      match ovn
      case Err(f) => Err(f)
      case Ok(ovnCommands) =>
        match net.ovsConvert
        case None => Err(OvsPrepare)
        case Some(ovsCommands) =>
          assert member ==> ovnCommands + ovsCommands == ovsCommands;
          Ok(ovnCommands + ovsCommands)
  }

  /** On a non-member run that succeeds, the OVN commands come first and the
      OVS commands last. */
  lemma NetworkCommandsOrder(northbound: string, net: NetworkOracle)
    requires northbound != ""
    requires NetworkCommands(false, northbound, net).Ok?
    ensures net.ovnRemote.Some? && net.ovsConvert.Some?
    ensures net.ovnConvert(northbound, Southbound(net.ovnRemote.value)).Some?
    ensures NetworkCommands(false, northbound, net).value
      == net.ovnConvert(northbound, Southbound(net.ovnRemote.value)).value + net.ovsConvert.value
  {
  }
}
