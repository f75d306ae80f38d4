/** The disk entity (`struct __DADisk`): a record the arbitration engine
    updates field by field, with identity-based equality and hashing, a
    description dictionary with a memoised serialisation, state and option
    bit sets, owned references, and four credentials plus a mode. */
module DADisk {
  import opened Wrappers
  import opened CFTypes
  import opened Registry
  import opened DAInternal

  // ---------------------------------------------------------------------
  // Option and state bits (DADisk.h is not part of this model; each flag is
  // a distinct single bit, at its Darwin position).

  const OptionEjectUponLogout: bv32 := 0x0000_0001
  const OptionMountAutomatic: bv32 := 0x0000_0010
  const OptionMountAutomaticNoDefer: bv32 := 0x0000_0020

  const StateStagedProbe: bv32 := 0x0001_0000
  const StateStagedPeek: bv32 := 0x0002_0000
  const StateStagedRepair: bv32 := 0x0004_0000
  const StateStagedApprove: bv32 := 0x0008_0000
  const StateStagedAuthorize: bv32 := 0x0010_0000
  const StateStagedMount: bv32 := 0x0020_0000

  /** Every staged-pipeline bit. */
  const StateStagedAll: bv32 :=
    StateStagedProbe | StateStagedPeek | StateStagedRepair | StateStagedApprove | StateStagedAuthorize | StateStagedMount

  /** The default permission mode, 0755. */
  const DefaultMode: int := 0x1ED

  /** kIOPropertyMatchKey: the criterion answered by the registry rather
      than by the description. */
  const PropertyMatchKey: string := "IOPropertyMatch"

  // ---------------------------------------------------------------------
  // Owned references, held by handle; the model does not look inside them.

  datatype CallbackRef = CallbackRef(handle: nat)
  datatype ObjectRef = ObjectRef(handle: nat)
  datatype FileSystemRef = FileSystemRef(handle: nat)

  /** The whole state of a disk as a value. */
  datatype DiskImage = DiskImage(
    id: CString,
    bypath: Option<Url>,
    claim: Option<CallbackRef>,
    context: Option<ObjectRef>,
    contextRe: Option<ObjectRef>,
    description: Dictionary,
    device: Option<Url>,
    deviceNode: int,
    cookedPath: Option<CString>,
    rawPath: Option<CString>,
    deviceUnit: int,
    filesystem: Option<FileSystemRef>,
    media: Option<Node>,
    mode: int,
    options: bv32,
    serialization: Option<CString>,
    state: bv32,
    userEGID: uint32,
    userEUID: uint32,
    userRGID: uint32,
    userRUID: uint32)

  /** The state __DADiskCreate gives a new disk with identifier id. */
  function Defaults(id: CString): (img: DiskImage)
    ensures img.description.Keys == {DiskIDKey}
  {
    DiskImage(
      id := id,
      bypath := None, claim := None, context := None, contextRe := None,
      description := map[DiskIDKey := Data(id + [0])],
      device := None, deviceNode := 0, cookedPath := None, rawPath := None,
      deviceUnit := -1, filesystem := None, media := None,
      mode := DefaultMode, options := 0, serialization := None, state := 0,
      userEGID := GID_ADMIN, userEUID := UID_ROOT, userRGID := GID_ADMIN, userRUID := UID_ROOT)
  }

  /** A new disk answers no option and no state, has mode 0755 and unit
      -1, belongs to root in group admin, holds no references, and its
      description is the disk identifier alone, the id and its NUL. */
  lemma DefaultsAnswer(id: CString)
    ensures var img := Defaults(id);
            && (forall mask :: !HasBits(img.options, mask) && !HasBits(img.state, mask))
            && img.mode == DefaultMode && img.deviceUnit == -1
            && img.userEUID == UID_ROOT && img.userRUID == UID_ROOT
            && img.userEGID == GID_ADMIN && img.userRGID == GID_ADMIN
            && img.bypath.None? && img.claim.None? && img.context.None? && img.contextRe.None?
            && img.serialization.None? && img.filesystem.None? && img.media.None? && img.device.None?
            && Lookup(img.description, DiskIDKey) == Some(Data(id + [0]))
            && forall key :: key != DiskIDKey ==> Lookup(img.description, key).None?
  {
  }

  // ---------------------------------------------------------------------
  // Bit sets.

  /** Some bit of mask is set in bits (DADiskGetOption, DADiskGetState). */
  predicate HasBits(bits: bv32, mask: bv32) {
    bits & mask != 0
  }

  /** `bits &= ~mask; bits |= value ? mask : 0`: the bits of mask become
      value, every other bit keeps its value. */
  function SetBits(bits: bv32, mask: bv32, value: bool): (r: bv32)
    ensures r & mask == (if value then mask else 0)
    ensures r & !mask == bits & !mask
  {
    (bits & !mask) | (if value then mask else 0)
  }

  /** After setting a mask, querying it answers the value set (a query of
      an empty mask is always false). */
  lemma SetBitsThenHasBits(bits: bv32, mask: bv32, value: bool)
    ensures HasBits(SetBits(bits, mask, value), mask) == (value && mask != 0)
  {
  }

  /** Setting one mask does not disturb a query of a disjoint mask. */
  lemma SetBitsKeepsDisjointBits(bits: bv32, mask: bv32, value: bool, other: bv32)
    requires mask & other == 0
    ensures HasBits(SetBits(bits, mask, value), other) == HasBits(bits, other)
  {
    AgreeOutsideMask(bits, SetBits(bits, mask, value), mask, other);
  }

  /** Two bit sets that agree outside mask agree on any mask disjoint from it. */
  lemma AgreeOutsideMask(bits: bv32, r: bv32, mask: bv32, other: bv32)
    requires mask & other == 0
    requires r & !mask == bits & !mask
    ensures HasBits(r, other) == HasBits(bits, other)
  {
    ClearedMaskIsInvisible(r, mask, other);
    ClearedMaskIsInvisible(bits, mask, other);
  }

  lemma ClearedMaskIsInvisible(bits: bv32, mask: bv32, other: bv32)
    requires mask & other == 0
    ensures (bits & !mask) & other == bits & other
  {
  }

  // ---------------------------------------------------------------------
  // The description dictionary.

  /** DADiskSetDescription's dictionary update: a value is stored, no value
      removes the key. */
  function WriteDescription(d: Dictionary, key: string, value: Option<Value>): (r: Dictionary)
    ensures Lookup(r, key) == value
    ensures forall k :: k != key ==> Lookup(r, k) == Lookup(d, k)
  {
    match value
    case Some(v) => d[key := v]
    case None => d - {key}
  }

  /** One criterion of DADiskMatch: the property-match criterion asks the
      registry about the disk's media with the description's own value for
      that key; any other criterion needs the description to hold an equal
      value under the same key. */
  predicate CriterionHolds(description: Dictionary, media: Option<Node>,
                           tableMatch: (Option<Node>, Option<Value>) -> bool,
                           key: string, value: Value)
  {
    if key == PropertyMatchKey then tableMatch(media, Lookup(description, key))
    else key in description && description[key] == value
  }

  /** Every criterion holds. */
  predicate Matches(description: Dictionary, media: Option<Node>,
                    tableMatch: (Option<Node>, Option<Value>) -> bool, criteria: Dictionary)
  {
    forall k :: k in criteria ==> CriterionHolds(description, media, tableMatch, k, criteria[k])
  }

  /** Without a property-match criterion, a disk matches exactly when its
      description holds every criterion key with an equal value. */
  lemma MatchIsSubDictionary(description: Dictionary, media: Option<Node>,
                             tableMatch: (Option<Node>, Option<Value>) -> bool, criteria: Dictionary)
    requires PropertyMatchKey !in criteria
    ensures Matches(description, media, tableMatch, criteria) <==>
              forall k :: k in criteria ==> k in description && description[k] == criteria[k]
  {
  }

  /** A single criterion key the description lacks makes the match fail. */
  lemma MatchFailsOnMissingKey(description: Dictionary, media: Option<Node>,
                               tableMatch: (Option<Node>, Option<Value>) -> bool, criteria: Dictionary, key: string)
    requires key in criteria && key != PropertyMatchKey && key !in description
    ensures !Matches(description, media, tableMatch, criteria)
  {
    assert !CriterionHolds(description, media, tableMatch, key, criteria[key]);
  }

  /** A cached serialisation is coherent when it is absent or is what the
      writer makes of the current description. */
  predicate CacheCoherent(img: DiskImage, write: Value -> Option<CString>) {
    img.serialization.Some? ==> img.serialization == SerializeDiskDescription(write, Some(img.description))
  }

  // ---------------------------------------------------------------------
  // The entity.

  class Disk {
    const id: CString
    var bypath: Option<Url>
    var claim: Option<CallbackRef>
    var context: Option<ObjectRef>
    var contextRe: Option<ObjectRef>
    var description: Dictionary
    var device: Option<Url>
    var deviceNode: int
    var cookedPath: Option<CString>   // _devicePath[0]
    var rawPath: Option<CString>      // _devicePath[1]
    var deviceUnit: int
    var filesystem: Option<FileSystemRef>
    var media: Option<Node>
    var mode: int
    var options: bv32
    var serialization: Option<CString>
    var state: bv32
    var userEGID: uint32
    var userEUID: uint32
    var userRGID: uint32
    var userRUID: uint32

    function Image(): DiskImage
      reads this
    {
      DiskImage(id, bypath, claim, context, contextRe, description, device, deviceNode,
                cookedPath, rawPath, deviceUnit, filesystem, media, mode, options,
                serialization, state, userEGID, userEUID, userRGID, userRUID)
    }

    /** __DADiskCreate: the identifier is the C string in `id` (strdup), the
        description holds only that identifier with its NUL, and every other
        field takes its default. */
    constructor (id: CString)
      ensures Image() == Defaults(CStr(id))
      ensures 0 !in this.id
    {
      this.id := CStr(id);
      bypath := None;
      claim := None;
      context := None;
      contextRe := None;
      description := map[DiskIDKey := Data(CStr(id) + [0])];
      device := None;
      deviceNode := 0;
      cookedPath := None;
      rawPath := None;
      deviceUnit := -1;
      filesystem := None;
      media := None;
      mode := DefaultMode;
      options := 0;
      serialization := None;
      state := 0;
      userEGID := GID_ADMIN;
      userEUID := UID_ROOT;
      userRGID := GID_ADMIN;
      userRUID := UID_ROOT;
    }

    // -- getters -------------------------------------------------------

    /** DADiskGetDescription */
    function GetDescription(key: string): (r: Option<Value>)
      reads this
      ensures r.Some? <==> key in description
      ensures r.Some? ==> r.value == description[key]
    {
      Lookup(description, key)
    }

    /** DADiskGetBSDPath: the raw path or the block (cooked) path. */
    function GetBSDPath(raw: bool): (r: Option<CString>)
      reads this
      ensures raw ==> r == rawPath
      ensures !raw ==> r == cookedPath
    {
      if raw then rawPath else cookedPath
    }

    /** DADiskGetBSDUnit: the SInt32 unit returned as UInt32, so an unknown
        unit (-1) reads as 0xFFFFFFFF. */
    function GetBSDUnit(): (r: uint32)
      reads this
      ensures 0 <= deviceUnit < TWO_32 ==> r == deviceUnit
      ensures deviceUnit == -1 ==> r == 0xFFFF_FFFF
    {
      ToUInt32(deviceUnit)
    }

    /** DADiskGetOption: some bit of the mask is set in the options. */
    function GetOption(option: bv32): (r: bool)
      reads this
      ensures option == 0 ==> !r
      ensures options & option == 0 ==> !r
      ensures option != 0 && options & option == option ==> r
    {
      HasBits(options, option)
    }

    /** DADiskGetState: some bit of the mask is set in the state. */
    function GetState(mask: bv32): (r: bool)
      reads this
      ensures mask == 0 ==> !r
      ensures state & mask == 0 ==> !r
      ensures mask != 0 && state & mask == mask ==> r
    {
      HasBits(state, mask)
    }

    /** DADiskCompareDescription: EqualTo (0) exactly when the description's
        value for key equals value (both absent included); GreaterThan (1)
        exactly when only the description has one; LessThan (-1) otherwise. */
    function CompareDescription(key: string, value: Option<Value>): (r: int)
      reads this
      ensures r == -1 || r == 0 || r == 1
      ensures r == 0 <==> Lookup(description, key) == value
      ensures r == 1 <==> key in description && value.None?
    {
      var object1 := Lookup(description, key);
      // value equality covers both the identity test and CFEqual
      if object1 == value then 0
      else if object1.None? then -1
      else if value.None? then 1
      else -1
    }

    /** DADiskMatch: applies every criterion (in the dictionary's own order)
        and answers whether all held. */
    method Match(criteria: Dictionary, tableMatch: (Option<Node>, Option<Value>) -> bool) returns (matched: bool)
      ensures matched == Matches(description, media, tableMatch, criteria)
    {
      var disk := true;  // the context pointer, cleared to NULL by the first failing criterion
      var remaining := criteria.Keys;
      while remaining != {}
        invariant remaining <= criteria.Keys
        invariant disk <==> forall k :: k in criteria && k !in remaining ==>
                              CriterionHolds(description, media, tableMatch, k, criteria[k])
        decreases remaining
      {
        var key :| key in remaining;
        if disk {
          var compare := Lookup(description, key);
          if key == PropertyMatchKey {
            if !tableMatch(media, compare) {
              disk := false;
            }
          } else if compare.None? || compare.value != criteria[key] {
            disk := false;
          }
        }
        remaining := remaining - {key};
      }
      matched := disk;
    }

    /** DADiskGetSerialization: computes the serialisation only when none is
        cached, and otherwise returns the cached one unchanged. */
    method GetSerialization(write: Value -> Option<CString>) returns (data: Option<CString>)
      modifies this`serialization
      ensures data == serialization
      ensures old(serialization).Some? ==> serialization == old(serialization)
      ensures old(serialization).None? ==> serialization == SerializeDiskDescription(write, Some(description))
      ensures old(CacheCoherent(Image(), write)) ==>
                CacheCoherent(Image(), write) && data == SerializeDiskDescription(write, Some(description))
    {
      if serialization.None? {
        serialization := SerializeDiskDescription(write, Some(description));
      }
      data := serialization;
    }

    // -- mutators ------------------------------------------------------

    /** DADiskSetBypath: drops the old reference, then holds the new one. */
    method SetBypath(url: Option<Url>)
      modifies this
      ensures Image() == old(Image()).(bypath := url)
    {
      if bypath.Some? {
        bypath := None;
      }
      if url.Some? {
        bypath := url;
      }
    }

    /** DADiskSetClaim */
    method SetClaim(callback: Option<CallbackRef>)
      modifies this
      ensures Image() == old(Image()).(claim := callback)
    {
      if claim.Some? {
        claim := None;
      }
      if callback.Some? {
        claim := callback;
      }
    }

    /** DADiskSetContext */
    method SetContext(ref: Option<ObjectRef>)
      modifies this
      ensures Image() == old(Image()).(context := ref)
    {
      if context.Some? {
        context := None;
      }
      if ref.Some? {
        context := ref;
      }
    }

    /** DADiskSetContextRe */
    method SetContextRe(ref: Option<ObjectRef>)
      modifies this
      ensures Image() == old(Image()).(contextRe := ref)
    {
      if contextRe.Some? {
        contextRe := None;
      }
      if ref.Some? {
        contextRe := ref;
      }
    }

    /** DADiskSetDescription: stores or removes the value and always drops
        the cached serialisation. */
    method SetDescription(key: string, value: Option<Value>)
      modifies this
      ensures Image() == old(Image()).(description := WriteDescription(old(description), key, value),
                                       serialization := None)
      ensures forall write :: CacheCoherent(Image(), write)
    {
      if value.Some? {
        description := description[key := value.value];
      } else {
        description := description - {key};
      }
      if serialization.Some? {
        serialization := None;
      }
    }

    /** DADiskSetFileSystem */
    method SetFileSystem(filesystem: Option<FileSystemRef>)
      modifies this
      ensures Image() == old(Image()).(filesystem := filesystem)
    {
      if this.filesystem.Some? {
        this.filesystem := None;
      }
      if filesystem.Some? {
        this.filesystem := filesystem;
      }
    }

    /** DADiskSetOption: the same as DADiskSetOptions for one option. */
    method SetOption(option: bv32, value: bool)
      modifies this
      ensures Image() == old(Image()).(options := SetBits(old(options), option, value))
    {
      SetOptions(option, value);
    }

    /** DADiskSetOptions: the bits of the mask become value; every other
        option bit, and the state, are untouched. */
    method SetOptions(mask: bv32, value: bool)
      modifies this
      ensures Image() == old(Image()).(options := SetBits(old(options), mask, value))
    {
      options := SetBits(options, mask, value);
    }

    /** DADiskSetState: the bits of the mask become value; every other state
        bit, and the options, are untouched. */
    method SetState(mask: bv32, value: bool)
      modifies this
      ensures Image() == old(Image()).(state := SetBits(old(state), mask, value))
    {
      state := SetBits(state, mask, value);
    }

    /** DADiskSetUserEGID */
    method SetUserEGID(gid: uint32)
      modifies this
      ensures Image() == old(Image()).(userEGID := gid)
    {
      userEGID := gid;
    }

    /** DADiskSetUserEUID */
    method SetUserEUID(uid: uint32)
      modifies this
      ensures Image() == old(Image()).(userEUID := uid)
    {
      userEUID := uid;
    }
  }

  // ---------------------------------------------------------------------
  // Identity.

  /** __DADiskEqual: strcmp of the identifiers. */
  predicate Equal(a: Disk, b: Disk) {
    StrEqual(a.id, b.id)
  }

  function Min(a: int, b: int): int {
    if a < b then a else b
  }

  /** __DADiskHash: CFHashBytes (`hashBytes`) over at most the first 16
      bytes of the identifier. */
  function Hash(hashBytes: CString -> int, d: Disk): int {
    hashBytes(d.id[..Min(|CStr(d.id)|, 16)])
  }

  /** For identifiers as the constructor stores them (no NUL inside), two
      disks are equal exactly when their identifiers are. */
  lemma EqualIffSameID(a: Disk, b: Disk)
    requires 0 !in a.id && 0 !in b.id
    ensures Equal(a, b) <==> a.id == b.id
  {
    CStrOfCString(a.id);
    CStrOfCString(b.id);
  }

  /** Equal disks hash alike, whatever CFHashBytes computes. */
  lemma EqualDisksHashAlike(hashBytes: CString -> int, a: Disk, b: Disk)
    requires Equal(a, b)
    ensures Hash(hashBytes, a) == Hash(hashBytes, b)
  {
    var ca, cb := CStr(a.id), CStr(b.id);
    var n := Min(|ca|, 16);
    assert a.id[..n] == ca[..n];
    assert b.id[..n] == cb[..n];
  }

  /** The hash reads only the first 16 bytes: identifiers that agree there
      collide, as the equality check then has to separate them. */
  lemma HashReadsSixteenBytes(hashBytes: CString -> int, a: Disk, b: Disk)
    requires 0 !in a.id && 0 !in b.id
    requires |a.id| >= 16 && |b.id| >= 16 && a.id[..16] == b.id[..16]
    ensures Hash(hashBytes, a) == Hash(hashBytes, b)
  {
    CStrOfCString(a.id);
    CStrOfCString(b.id);
  }
}
