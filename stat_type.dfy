/** The statistic label of shared/utils/stat_type.go: a name qualified by its unit and its "per" denominator. */
module StatType {
  import opened Text

  /**
   * "name (unit/per)", "name (unit)", "name/per" or just "name", depending on
   * which of unit and per are non-empty.
   */
  function CreateStatType(name: string, unit: string, per: string): (r: string)
    ensures StartsWith(r, name)
    ensures r == name <==> unit == "" && per == ""
    ensures unit != "" ==> r[|name|..] == " (" + unit + (if per != "" then "/" + per else "") + ")"
    ensures unit == "" && per != "" ==> r[|name|..] == "/" + per
  {
    if unit != "" && per != "" then name + " (" + unit + "/" + per + ")"
    else if unit != "" then name + " (" + unit + ")"
    else if per != "" then name + "/" + per
    else name
  }

  /**
   * Labels keep units apart: for the same name and denominator, two non-empty
   * units give the same label only if they are the same unit. So the statistics
   * of one kind measured in different units never share a chart.
   */
  lemma {:induction false} CreateStatTypeSeparatesUnits(name: string, u1: string, u2: string, per: string)
    requires u1 != "" && u2 != ""
    ensures CreateStatType(name, u1, per) == CreateStatType(name, u2, per) <==> u1 == u2
  {
    if CreateStatType(name, u1, per) == CreateStatType(name, u2, per) {
      var tail := (if per != "" then "/" + per else "") + ")";
      var l1 := name + " (" + u1 + tail;
      var l2 := name + " (" + u2 + tail;
      assert CreateStatType(name, u1, per) == l1;
      assert CreateStatType(name, u2, per) == l2;
      assert |u1| == |u2|;
      assert forall i :: 0 <= i < |u1| ==> u1[i] == l1[|name| + 2 + i] == l2[|name| + 2 + i] == u2[i];
    }
  }
}
