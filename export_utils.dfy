/**
  The column widths the spreadsheet export sets: one per key of the first
  row, each as wide as the key and as the widest value under it.
 */
module ExportUtils {
  import opened Js

  /** `String(value || "")`: a falsy value counts as the empty string. */
  function ValueText(v: JsValue): (r: string)
    ensures !Truthy(v) ==> r == ""
    ensures Truthy(v) ==> r == ToStr(v)
  {
    if Truthy(v) then ToStr(v) else ""
  }

  function Max(a: nat, b: nat): nat
  {
    if a < b then b else a
  }

  /** `Math.max(key.length, ...data.map(row => String(row[key] || "").length))`. */
  function Width(key: string, data: seq<Fields>): (r: nat)
    ensures r >= |key|
    ensures forall i :: 0 <= i < |data| ==> r >= |ValueText(Get(data[i], key))|
    ensures r == |key| || exists i :: 0 <= i < |data| && r == |ValueText(Get(data[i], key))|
  {
    if data == [] then |key|
    else
      var rest := Width(key, data[1..]);
      var here := |ValueText(Get(data[0], key))|;
      assert forall i :: 1 <= i < |data| ==> data[i] == data[1..][i - 1];
      if rest == |key| || here > rest then Max(here, rest)
      else
        var i :| 0 <= i < |data[1..]| && rest == |ValueText(Get(data[1..][i], key))|;
        assert data[1..][i] == data[i + 1];
        rest
  }

  /** `Object.keys(data[0] || {}).map(key => ({ wch: ... }))`. */
  function ColumnWidths(data: seq<Fields>): (r: seq<nat>)
    ensures data == [] ==> r == []
    ensures data != [] ==> |r| == |data[0]|
    ensures data != [] ==> forall i :: 0 <= i < |r| ==> r[i] == Width(data[0][i].0, data)
  {
    if data == [] then []
    else
      var keys := Keys(data[0]);
      seq(|keys|, (i: int) requires 0 <= i < |keys| => Width(keys[i], data))
  }

  /** `${filename}.xlsx`. */
  function FileName(name: string): (r: string)
    ensures |r| == |name| + 5
    ensures r[..|name|] == name && r[|name|..] == ".xlsx"
  {
    name + ".xlsx"
  }
}
