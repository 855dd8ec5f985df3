/** A JavaScript object as the services read it: its own keys in
    `Object.keys` order, each with its value. */
module Objects {

  /** `Object.keys(row)` */
  function Keys<V>(row: seq<(string, V)>): (ks: seq<string>)
    ensures |ks| == |row| && forall i :: 0 <= i < |row| ==> ks[i] == row[i].0
  {
    seq(|row|, i requires 0 <= i < |row| => row[i].0)
  }
}
