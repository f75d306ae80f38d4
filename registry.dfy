/** The I/O Registry as the disk builders see it: an entry and its
    service-plane parents, nearest first. Each entry carries the class names
    it conforms to, whether it is in the device-tree plane, its property
    table, and its names and paths (None where the registry call fails). */
module Registry {
  import opened Wrappers
  import opened CFTypes

  datatype Node = Node(
    classes: set<string>,              // IOObjectConformsTo answers true for these
    inDeviceTree: bool,                // IORegistryEntryInPlane(kIODeviceTreePlane)
    propertiesReadable: bool,          // IORegistryEntryCreateCFProperties succeeds
    properties: Dictionary,
    name: Option<CString>,             // IORegistryEntryGetName
    deviceTreeName: Option<CString>,   // IORegistryEntryGetNameInPlane(kIODeviceTreePlane)
    deviceTreePath: Option<CString>,   // IORegistryEntryGetPath(kIODeviceTreePlane)
    servicePath: Option<CString>)      // IORegistryEntryGetPath(kIOServicePlane)

  const BlockStorageDeviceClass: string := "IOBlockStorageDevice"

  /** IOObjectConformsTo(entry, kIOBlockStorageDeviceClass) */
  predicate IsBlockStorageDevice(n: Node) {
    BlockStorageDeviceClass in n.classes
  }

  /** IORegistryEntryInPlane(entry, kIODeviceTreePlane) */
  predicate InDeviceTree(n: Node) {
    n.inDeviceTree
  }

  /** IORegistryEntrySearchCFProperty with kIORegistryIterateParents |
      kIORegistryIterateRecursively: chain[0] is the entry searched from, the
      rest its parents nearest first; the value comes from the first of them
      whose properties hold the key. */
  function SearchProperty(chain: seq<Node>, key: string): (r: Option<Value>)
    ensures r.Some? <==> exists i :: 0 <= i < |chain| && key in chain[i].properties
    ensures r.Some? ==> exists i :: 0 <= i < |chain| && key in chain[i].properties
                         && r.value == chain[i].properties[key]
                         && forall j :: 0 <= j < i ==> key !in chain[j].properties
  {
    if chain == [] then None
    else if key in chain[0].properties then Some(chain[0].properties[key])
    else
      var r := SearchProperty(chain[1..], key);
      assert forall i :: 1 <= i < |chain| ==> chain[i] == chain[1..][i - 1];
      r
  }

  /** The index of the first node at or after `from` that satisfies p. */
  function FirstIndex(nodes: seq<Node>, from: nat, p: Node -> bool): (r: Option<nat>)
    requires from <= |nodes|
    ensures r.Some? ==> from <= r.value < |nodes| && p(nodes[r.value])
                        && forall j :: from <= j < r.value ==> !p(nodes[j])
    ensures r.None? ==> forall j :: from <= j < |nodes| ==> !p(nodes[j])
    decreases |nodes| - from
  {
    if from == |nodes| then None
    else if p(nodes[from]) then Some(from)
    else FirstIndex(nodes, from + 1, p)
  }

  /** The `while ((entry = IOIteratorNext(services)))` walk over the parents,
      stopping at the first entry that satisfies p. */
  method FindFirst(nodes: seq<Node>, from: nat, p: Node -> bool) returns (r: Option<nat>)
    requires from <= |nodes|
    ensures r == FirstIndex(nodes, from, p)
  {
    var i := from;
    while i < |nodes|
      invariant from <= i <= |nodes|
      invariant FirstIndex(nodes, from, p) == FirstIndex(nodes, i, p)
    {
      if p(nodes[i]) {
        return Some(i);
      }
      i := i + 1;
    }
    return None;
  }
}
