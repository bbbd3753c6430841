/** The argument arrays OpenDynamicWindow builds for the clone step and the
    clone step takes apart again. */
module UIArgs {
  import opened UITypes

  /** `totalArgs`: the template, the instance name, then the caller's arguments. */
  function Pack(template: string, instanceName: string, args: seq<Arg>): (r: seq<Arg>)
    ensures |r| == |args| + 2
    ensures r[0] == Str(template) && r[1] == Str(instanceName)
    ensures r[2..] == args
  {
    [Str(template), Str(instanceName)] + args
  }

  /** What OnDynamicWindowCallback reads back from `_args`: the two names by a
      string cast and the rest by copying. `None` where the index or the cast
      would throw. */
  function Unpack(total: seq<Arg>): (r: Option<(string, string, seq<Arg>)>)
    ensures r.Some? <==> |total| >= 2 && total[0].Str? && total[1].Str?
    ensures r.Some? ==> |r.value.2| == |total| - 2
  {
    if |total| >= 2 && total[0].Str? && total[1].Str? then
      Some((total[0].s, total[1].s, total[2..]))
    else
      None
  }

  /** Unpacking gives back exactly what was packed. */
  lemma UnpackPack(template: string, instanceName: string, args: seq<Arg>)
    ensures Unpack(Pack(template, instanceName, args)) == Some((template, instanceName, args))
  {
    var total := Pack(template, instanceName, args);
    assert total[0] == Str(template) && total[1] == Str(instanceName);
  }

  /** Packing what was unpacked gives back the array. */
  lemma PackUnpack(total: seq<Arg>)
    requires Unpack(total).Some?
    ensures var (t, i, a) := Unpack(total).value; Pack(t, i, a) == total
  {
    var (t, i, a) := Unpack(total).value;
    assert Pack(t, i, a) == [total[0], total[1]] + total[2..];
    assert [total[0], total[1]] + total[2..] == total;
  }

  /** `originArgs`: the copy loop that drops the first two entries. */
  method CopyOriginArgs(total: seq<Arg>) returns (origin: seq<Arg>)
    requires |total| >= 2
    ensures |origin| == |total| - 2
    ensures forall k :: 0 <= k < |origin| ==> origin[k] == total[k + 2]
    ensures Unpack(total).Some? ==> origin == Unpack(total).value.2
  {
    var a := new Arg[|total| - 2];
    for i := 2 to |total|
      invariant forall k :: 2 <= k < i ==> a[k - 2] == total[k]
    {
      a[i - 2] := total[i];
    }
    origin := a[..];
  }
}
