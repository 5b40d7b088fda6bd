/** Name lookup as the device-extension and validation-layer checks perform it: for each
    required name in order, a linear `strcmp` scan of the available names, giving up at
    the first required name that is missing. */
module Names {

  /** A name is the text of a NUL-terminated string before its terminator, so `strcmp`
      finds two names equal exactly when they are the same sequence of characters. */
  type Name = string

  /** The outcome of checking a list of required names: all were found, or the scan
      stopped at the required name with the given index. */
  datatype Lookup = AllFound | MissingAt(index: nat)

  /** The inner scan: does `name` equal an available entry at position `from` or later? */
  function FoundFrom(name: Name, available: seq<Name>, from: nat): (r: bool)
    requires from <= |available|
    decreases |available| - from
    ensures r <==> exists k :: from <= k < |available| && available[k] == name
  {
    if from == |available| then false
    else if available[from] == name then true
    else FoundFrom(name, available, from + 1)
  }

  /** The outer scan over the required names from position `i`. */
  function CheckFrom(required: seq<Name>, available: seq<Name>, i: nat): (r: Lookup)
    requires i <= |required|
    decreases |required| - i
    ensures r.AllFound? <==> forall k :: i <= k < |required| ==> required[k] in available
    ensures r.MissingAt? ==>
      && i <= r.index < |required|
      && required[r.index] !in available
      && forall k :: i <= k < r.index ==> required[k] in available
  {
    if i == |required| then AllFound
    else if !FoundFrom(required[i], available, 0) then MissingAt(i)
    else CheckFrom(required, available, i + 1)
  }

  /** Checks that every required name is available. When one is not, the result names
      the first missing one: the scan returns as soon as it meets it. */
  function CheckAll(required: seq<Name>, available: seq<Name>): (r: Lookup)
    ensures r.AllFound? <==> forall k :: 0 <= k < |required| ==> required[k] in available
    ensures r.MissingAt? ==>
      && r.index < |required|
      && required[r.index] !in available
      && forall k :: 0 <= k < r.index ==> required[k] in available
  {
    CheckFrom(required, available, 0)
  }
}
