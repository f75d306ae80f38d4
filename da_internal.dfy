/** The daemon's internal helpers: description keys, credential sentinels,
    kind names, the administrator check, the mount-table lookup, CF array and
    dictionary helpers, the key rewriting around description serialisation,
    and volume identifiers. */
module DAInternal {
  import opened Wrappers
  import opened CFTypes
  import opened Platform
  import opened UuidText
  import opened Decimal

  // ---------------------------------------------------------------------
  // Credential sentinels (DAInternal.h is not part of this model; these are
  // the Darwin values of root, the admin group and the "unknown" identity).

  const UID_ROOT: uint32 := 0
  const GID_ADMIN: uint32 := 80
  const UID_UNKNOWN: uint32 := 99
  const GID_UNKNOWN: uint32 := 99

  // ---------------------------------------------------------------------
  // Description keys.

  const DiskIDKey: string := "DADiskID"

  const VolumeKindKey: string := "DAVolumeKind"
  const VolumeMountableKey: string := "DAVolumeMountable"
  const VolumeNameKey: string := "DAVolumeName"
  const VolumeNetworkKey: string := "DAVolumeNetwork"
  const VolumePathKey: string := "DAVolumePath"
  const VolumeUUIDKey: string := "DAVolumeUUID"

  const MediaBlockSizeKey: string := "DAMediaBlockSize"
  const MediaBSDMajorKey: string := "DAMediaBSDMajor"
  const MediaBSDMinorKey: string := "DAMediaBSDMinor"
  const MediaBSDNameKey: string := "DAMediaBSDName"
  const MediaBSDUnitKey: string := "DAMediaBSDUnit"
  const MediaContentKey: string := "DAMediaContent"
  const MediaEjectableKey: string := "DAMediaEjectable"
  const MediaIconKey: string := "DAMediaIcon"
  const MediaKindKey: string := "DAMediaKind"
  const MediaLeafKey: string := "DAMediaLeaf"
  const MediaNameKey: string := "DAMediaName"
  const MediaPathKey: string := "DAMediaPath"
  const MediaRemovableKey: string := "DAMediaRemovable"
  const MediaSizeKey: string := "DAMediaSize"
  const MediaTypeKey: string := "DAMediaType"
  const MediaUUIDKey: string := "DAMediaUUID"
  const MediaWholeKey: string := "DAMediaWhole"
  const MediaWritableKey: string := "DAMediaWritable"

  const DeviceGUIDKey: string := "DADeviceGUID"
  const DeviceInternalKey: string := "DADeviceInternal"
  const DeviceModelKey: string := "DADeviceModel"
  const DevicePathKey: string := "DADevicePath"
  const DeviceProtocolKey: string := "DADeviceProtocol"
  const DeviceRevisionKey: string := "DADeviceRevision"
  const DeviceUnitKey: string := "DADeviceUnit"
  const DeviceVendorKey: string := "DADeviceVendor"

  const BusNameKey: string := "DABusName"
  const BusPathKey: string := "DABusPath"

  const AppearanceTimeKey: string := "DAAppearanceTime"

  // ---------------------------------------------------------------------
  // Kind names.

  const KindNameList: seq<string> := [
    "disk appeared",
    "disk claim",
    "disk claim release",
    "disk description changed",
    "disk disappeared",
    "disk eject",
    "disk eject approval",
    "disk mount",
    "disk mount approval",
    "disk peek",
    "disk refresh",
    "disk rename",
    "disk unmount",
    "disk unmount approval",
    "idle"
  ]

  /** _DACallbackKindGetName: an index into the 15-entry name table, defined
      only for the kinds the table covers. */
  function CallbackKindGetName(kind: nat): (name: string)
    requires kind < 15
    ensures name in KindNameList
    ensures kind == 14 <==> name == "idle"
  {
    KindNameList[kind]
  }

  /** _DARequestKindGetName: the same table, indexed by a request kind. */
  function RequestKindGetName(kind: nat): (name: string)
    requires kind < 15
    ensures name in KindNameList
    ensures kind == 14 <==> name == "idle"
  {
    KindNameList[kind]
  }

  /** Different kinds have different names, so a logged name identifies its kind. */
  lemma KindNamesDistinct(i: nat, j: nat)
    requires i < 15 && j < 15 && i != j
    ensures CallbackKindGetName(i) != CallbackKindGetName(j)
  {
  }

  // ---------------------------------------------------------------------
  // ___isadmin

  /** uid names a user whose name is listed in the admin group's members. */
  predicate IsAdminUser(accounts: UserDatabase, uid: uint32) {
    && accounts.GroupByID(GID_ADMIN).Some?
    && accounts.UserByID(uid).Some?
    && exists i :: 0 <= i < |accounts.GroupByID(GID_ADMIN).value.members|
         && StrEqual(accounts.GroupByID(GID_ADMIN).value.members[i], accounts.UserByID(uid).value.name)
  }

  /** ___isadmin: 1 exactly when the admin group exists, uid resolves to a
      user, and that user's name is one of the group's members; 0 otherwise. */
  method IsAdmin(accounts: UserDatabase, uid: uint32) returns (r: int)
    ensures r == 1 <==> IsAdminUser(accounts, uid)
    ensures r == 0 <==> !IsAdminUser(accounts, uid)
  {
    var group := accounts.GroupByID(GID_ADMIN);
    if group.Some? {
      var user := accounts.UserByID(uid);
      if user.Some? {
        var users := group.value.members;
        var i := 0;
        while i < |users|
          invariant 0 <= i <= |users|
          invariant forall j :: 0 <= j < i ==> !StrEqual(users[j], user.value.name)
        {
          if StrEqual(users[i], user.value.name) {
            return 1;
          }
          i := i + 1;
        }
      }
    }
    return 0;
  }

  // ---------------------------------------------------------------------
  // ___statfs

  /** sys/mount.h is not part of this model: MNAMELEN and MNT_LOCAL take the
      Darwin values. */
  const MNAMELEN: nat := 90
  const MNT_LOCAL: bv32 := 0x1000

  /** The fields of a `struct statfs` the model reads; the names are the C
      strings held in f_mntonname and f_mntfromname. */
  datatype StatFs = StatFs(mntOnName: CString, mntFromName: CString, owner: uint32, flags: bv32)

  /** Both names fit their MNAMELEN buffers with their NUL. */
  predicate WellFormed(fs: StatFs) {
    && |fs.mntOnName| < MNAMELEN && 0 !in fs.mntOnName
    && |fs.mntFromName| < MNAMELEN && 0 !in fs.mntFromName
  }

  predicate MountedOn(fs: StatFs, path: CString) {
    StrEqual(fs.mntOnName, path)
  }

  /** The first entry at or after `from` mounted on path and owned by euid. */
  function FirstOwnedMount(mounts: seq<StatFs>, path: CString, euid: uint32, from: nat): (r: Option<nat>)
    requires from <= |mounts|
    ensures r.Some? ==> from <= r.value < |mounts| && MountedOn(mounts[r.value], path)
                        && mounts[r.value].owner == euid
                        && forall j :: from <= j < r.value ==> !(MountedOn(mounts[j], path) && mounts[j].owner == euid)
    ensures r.None? ==> forall j :: from <= j < |mounts| ==> !(MountedOn(mounts[j], path) && mounts[j].owner == euid)
    decreases |mounts| - from
  {
    if from == |mounts| then None
    else if MountedOn(mounts[from], path) && mounts[from].owner == euid then Some(from)
    else FirstOwnedMount(mounts, path, euid, from + 1)
  }

  /** The last entry before `upto` mounted on path. */
  function LastMount(mounts: seq<StatFs>, path: CString, upto: nat): (r: Option<nat>)
    requires upto <= |mounts|
    ensures r.Some? ==> r.value < upto && MountedOn(mounts[r.value], path)
                        && forall j :: r.value < j < upto ==> !MountedOn(mounts[j], path)
    ensures r.None? ==> forall j :: 0 <= j < upto ==> !MountedOn(mounts[j], path)
  {
    if upto == 0 then None
    else if MountedOn(mounts[upto - 1], path) then Some(upto - 1)
    else LastMount(mounts, path, upto - 1)
  }

  /** The entry ___statfs copies out: the first one mounted on path whose
      owner is the effective user, else the last one mounted on path. */
  function StatfsEntry(mounts: seq<StatFs>, path: CString, euid: uint32): Option<StatFs> {
    match FirstOwnedMount(mounts, path, euid, 0)
    case Some(i) => Some(mounts[i])
    case None =>
      match LastMount(mounts, path, |mounts|)
      case Some(i) => Some(mounts[i])
      case None => None
  }

  /** ___statfs over the mount table getfsstat returns (an empty table when
      getfsstat reports no entries or an error) and the effective uid
      geteuid returns. `entry` is what is written to *buf; None when *buf is
      left untouched. */
  method Statfs(path: CString, mounts: seq<StatFs>, euid: uint32) returns (status: int, entry: Option<StatFs>)
    ensures status == 0 || status == -1
    ensures status == 0 <==> exists i :: 0 <= i < |mounts| && MountedOn(mounts[i], path)
    ensures entry.Some? <==> status == 0
    ensures entry == StatfsEntry(mounts, path, euid)
  {
    status := -1;
    entry := None;
    if |mounts| > 0 {
      var i := 0;
      while i < |mounts|
        invariant 0 <= i <= |mounts|
        invariant status == (if entry.Some? then 0 else -1)
        invariant FirstOwnedMount(mounts, path, euid, 0) == FirstOwnedMount(mounts, path, euid, i)
        invariant entry == match LastMount(mounts, path, i) case Some(j) => Some(mounts[j]) case None => None
      {
        if MountedOn(mounts[i], path) {
          status := 0;
          entry := Some(mounts[i]);
          if mounts[i].owner == euid {
            break;
          }
        }
        i := i + 1;
      }
    }
    StatfsEntryChoice(mounts, path, euid);
  }

  /** What ___statfs copies out, stated without the helper functions: it is
      an entry mounted on path; it is owned by euid exactly when some such
      entry is, and then it is the first such; otherwise it is the last entry
      mounted on path. */
  lemma StatfsEntryChoice(mounts: seq<StatFs>, path: CString, euid: uint32)
    ensures StatfsEntry(mounts, path, euid).Some? <==> exists i :: 0 <= i < |mounts| && MountedOn(mounts[i], path)
    ensures (exists i :: 0 <= i < |mounts| && MountedOn(mounts[i], path) && mounts[i].owner == euid) ==>
              exists i :: 0 <= i < |mounts| && StatfsEntry(mounts, path, euid) == Some(mounts[i])
                && MountedOn(mounts[i], path) && mounts[i].owner == euid
                && forall j :: 0 <= j < i ==> !(MountedOn(mounts[j], path) && mounts[j].owner == euid)
    ensures (forall i :: 0 <= i < |mounts| ==> !(MountedOn(mounts[i], path) && mounts[i].owner == euid)) ==>
              forall i :: (0 <= i < |mounts| && MountedOn(mounts[i], path)
                && (forall j :: i < j < |mounts| ==> !MountedOn(mounts[j], path))) ==>
                StatfsEntry(mounts, path, euid) == Some(mounts[i])
  {
    var first := FirstOwnedMount(mounts, path, euid, 0);
    var last := LastMount(mounts, path, |mounts|);
    if first.None? && last.Some? {
      forall i | 0 <= i < |mounts| && MountedOn(mounts[i], path)
                 && (forall j :: i < j < |mounts| ==> !MountedOn(mounts[j], path))
        ensures i == last.value
      {
      }
    }
  }

  // ---------------------------------------------------------------------
  // ___CFArrayContainsValue, ___CFArrayRemoveValue

  /** A CFMutableArray. */
  class MutableArray<T(==)> {
    var items: seq<T>

    constructor (items: seq<T>)
      ensures this.items == items
    {
      this.items := items;
    }
  }

  /** ___CFArrayContainsValue: membership over the whole range [0, count). */
  function ArrayContainsValue<T(==)>(list: MutableArray<T>, value: T): (r: bool)
    reads list
    ensures r <==> exists i :: 0 <= i < |list.items| && list.items[i] == value
  {
    value in list.items
  }

  /** CFArrayGetFirstIndexOfValue over the whole range. */
  function FirstIndexOfValue<T(==)>(s: seq<T>, value: T): (r: Option<nat>)
    ensures r.Some? ==> r.value < |s| && s[r.value] == value && value !in s[..r.value]
    ensures r.None? <==> value !in s
  {
    if s == [] then None
    else if s[0] == value then Some(0)
    else
      match FirstIndexOfValue(s[1..], value)
      case Some(i) =>
        assert s[..i + 1] == [s[0]] + s[1..][..i];
        Some(i + 1)
      case None => None
  }

  /** The array with the first occurrence of value taken out. */
  function RemoveFirst<T(==)>(s: seq<T>, value: T): seq<T> {
    match FirstIndexOfValue(s, value)
    case Some(i) => s[..i] + s[i + 1..]
    case None => s
  }

  /** ___CFArrayRemoveValue */
  method ArrayRemoveValue<T(==)>(list: MutableArray<T>, value: T)
    modifies list
    ensures list.items == RemoveFirst(old(list.items), value)
  {
    var index := FirstIndexOfValue(list.items, value);
    if index.Some? {
      list.items := list.items[..index.value] + list.items[index.value + 1..];
    }
  }

  /** Removing a value that is not there leaves the array as it was. */
  lemma RemoveFirstAbsent<T>(s: seq<T>, value: T)
    requires value !in s
    ensures RemoveFirst(s, value) == s
  {
  }

  /** Removing a value that is there takes out exactly one copy of it, keeps
      every element before the first copy in place, and shifts the rest down
      by one. */
  lemma RemoveFirstPresent<T>(s: seq<T>, value: T)
    requires value in s
    ensures |RemoveFirst(s, value)| == |s| - 1
    ensures multiset(RemoveFirst(s, value)) == multiset(s) - multiset{value}
    ensures exists i :: 0 <= i < |s| && s[i] == value && value !in s[..i]
              && RemoveFirst(s, value) == s[..i] + s[i + 1..]
  {
    var i := FirstIndexOfValue(s, value).value;
    var before, after := s[..i], s[i + 1..];
    assert RemoveFirst(s, value) == before + after;
    assert s == before + [value] + after;
    calc {
      multiset(s);
      multiset(before + [value] + after);
      multiset(before) + multiset{value} + multiset(after);
    }
  }

  // ---------------------------------------------------------------------
  // ___CFDictionaryGetIntegerValue, ___CFDictionarySetIntegerValue

  type int64 = n: int | -TWO_64 / 2 <= n < TWO_64 / 2

  /** A CFMutableDictionary. */
  class MutableDictionary {
    var entries: Dictionary

    constructor (entries: Dictionary)
      ensures this.entries == entries
    {
      this.entries := entries;
    }

    /** CFDictionarySetValue */
    method SetValue(key: string, value: Value)
      modifies this
      ensures entries == old(entries)[key := value]
    {
      entries := entries[key := value];
    }
  }

  /** ___CFDictionaryGetIntegerValue: the number under key read as SInt64;
      0 when the key is absent. */
  function GetIntegerValue(d: Dictionary, key: string): (r: int64)
    ensures key !in d ==> r == 0
  {
    match Lookup(d, key)
    case Some(Number(n)) => ToSInt64(n)
    case _ => 0
  }

  /** ___CFDictionarySetIntegerValue: stores value as an SInt64 CFNumber. */
  method SetIntegerValue(dictionary: MutableDictionary, key: string, value: int64)
    modifies dictionary
    ensures dictionary.entries == old(dictionary.entries)[key := Number(value)]
  {
    dictionary.SetValue(key, Number(value));
  }

  /** Reading back a key just set gives the value set; the other keys read as before. */
  lemma IntegerValueRoundTrip(d: Dictionary, key: string, value: int64, other: string)
    requires other != key
    ensures GetIntegerValue(d[key := Number(value)], key) == value
    ensures GetIntegerValue(d[key := Number(value)], other) == GetIntegerValue(d, other)
  {
    assert ToSInt64(value) == value;
  }

  // ---------------------------------------------------------------------
  // ___CFStringCopyCString, ___CFURLCopyFileSystemRepresentation

  /** ___CFStringCopyCString: the UTF-8 bytes of a string; None for a NULL
      string or one that cannot be encoded. */
  function StringCopyCString(host: Host, s: Option<string>): (r: Option<CString>)
    ensures s.None? ==> r.None?
  {
    match s
    case None => None
    case Some(text) => host.encodeUTF8(text)
  }

  /** ___CFURLCopyFileSystemRepresentation: the C string of a URL's POSIX path. */
  function URLCopyFileSystemRepresentation(host: Host, url: Option<Url>): (r: Option<CString>)
    ensures url.None? ==> r.None?
  {
    match url
    case None => None
    case Some(u) => StringCopyCString(host, Some(u.path))
  }

  // ---------------------------------------------------------------------
  // _DASerializeDiskDescription, _DAUnserializeDiskDescription

  /** The keys whose values are not property-list types and are rewritten
      around serialisation. */
  const RewrittenKeys: set<string> := {MediaUUIDKey, VolumePathKey, VolumeUUIDKey}

  /** The value the serialised copy holds for key: a UUID under a UUID key
      becomes its string (CFUUIDCreateString), a URL under the volume-path key
      becomes its POSIX path (CFURLCopyFileSystemPath); anything else, or a
      value of another type under those keys, is kept. */
  function SerializedValue(key: string, v: Value): Value {
    if key == MediaUUIDKey || key == VolumeUUIDKey then
      match v
      case UuidValue(u) => Str(UuidString(u))
      case _ => v
    else if key == VolumePathKey then
      match v
      case UrlValue(url) => Str(url.path)
      case _ => v
    else v
  }

  /** The value the unserialised description holds for key: a string under a
      UUID key becomes a UUID when it parses (CFUUIDCreateFromString), a
      string under the volume-path key becomes a directory URL
      (CFURLCreateWithFileSystemPath with isDirectory TRUE); anything else is
      kept as decoded. */
  function UnserializedValue(key: string, v: Value): Value {
    if key == MediaUUIDKey || key == VolumeUUIDKey then
      match v
      case Str(s) =>
        (match UuidFromString(s)
         case Some(u) => UuidValue(u)
         case None => v)
      case _ => v
    else if key == VolumePathKey then
      match v
      case Str(p) => UrlValue(Url(p, true))
      case _ => v
    else v
  }

  /** The mutable copy _DASerializeDiskDescription hands to the plist writer;
      the description itself is not modified. */
  function SerializationCopy(description: Dictionary): (copy: Dictionary)
    ensures copy.Keys == description.Keys
    ensures forall k :: k in description && k !in RewrittenKeys ==> copy[k] == description[k]
    ensures forall k :: k in description ==> copy[k] == SerializedValue(k, description[k])
  {
    map k | k in description :: SerializedValue(k, description[k])
  }

  /** _DASerializeDiskDescription: no data for a NULL description; otherwise
      what the binary plist writer `write` makes of the rewritten copy (None
      when it fails). */
  function SerializeDiskDescription(write: Value -> Option<CString>, description: Option<Dictionary>): (data: Option<CString>)
    ensures description.None? ==> data.None?
  {
    match description
    case None => None
    case Some(d) => write(Dict(SerializationCopy(d)))
  }

  /** One in-place conversion of _DAUnserializeDiskDescription: the value
      under key is replaced when it converts to something else. */
  function RewriteKey(d: Dictionary, key: string): (r: Dictionary)
    ensures r.Keys == d.Keys
    ensures forall k :: k in d && k != key ==> r[k] == d[k]
    ensures key in d ==> r[key] == UnserializedValue(key, d[key])
  {
    if key in d && UnserializedValue(key, d[key]) != d[key] then d[key := UnserializedValue(key, d[key])] else d
  }

  /** The description _DAUnserializeDiskDescription makes of a decoded
      dictionary: the media UUID, the volume path and the volume UUID are
      converted in turn. */
  function UnserializedForm(decoded: Dictionary): (description: Dictionary)
    ensures description.Keys == decoded.Keys
    ensures forall k :: k in decoded && k !in RewrittenKeys ==> description[k] == decoded[k]
    ensures forall k :: k in decoded ==> description[k] == UnserializedValue(k, decoded[k])
  {
    RewriteKey(RewriteKey(RewriteKey(decoded, MediaUUIDKey), VolumePathKey), VolumeUUIDKey)
  }

  /** _DAUnserializeDiskDescription: `read` is the property-list reader;
      anything but a dictionary yields no description. The three rewritten
      keys are converted back in place. */
  method UnserializeDiskDescription(read: CString -> Option<Value>, data: CString) returns (description: MutableDictionary?)
    ensures description == null <==> !(read(data).Some? && read(data).value.Dict?)
    ensures description != null ==>
              fresh(description) && description.entries == UnserializedForm(read(data).value.entries)
  {
    var plist := read(data);
    if plist.None? || !plist.value.Dict? {
      return null;
    }
    description := new MutableDictionary(plist.value.entries);
    ConvertUuidEntry(description, MediaUUIDKey);
    ConvertPathEntry(description);
    ConvertUuidEntry(description, VolumeUUIDKey);
  }

  /** A string under a UUID key becomes the UUID it parses to. */
  method ConvertUuidEntry(description: MutableDictionary, key: string)
    requires key == MediaUUIDKey || key == VolumeUUIDKey
    modifies description
    ensures description.entries == RewriteKey(old(description.entries), key)
  {
    var current := Lookup(description.entries, key);
    if current.Some? && current.value.Str? {
      var uuid := UuidFromString(current.value.s);
      if uuid.Some? {
        description.SetValue(key, UuidValue(uuid.value));
      }
    }
  }

  /** A string under the volume-path key becomes a directory URL. */
  method ConvertPathEntry(description: MutableDictionary)
    modifies description
    ensures description.entries == RewriteKey(old(description.entries), VolumePathKey)
  {
    var current := Lookup(description.entries, VolumePathKey);
    if current.Some? && current.value.Str? {
      description.SetValue(VolumePathKey, UrlValue(Url(current.value.s, true)));
    }
  }

  /** A description whose rewritten keys hold what the daemon stores there:
      UUIDs, and a directory URL for the volume path. */
  predicate RoundTrippable(d: Dictionary) {
    && (MediaUUIDKey in d ==> d[MediaUUIDKey].UuidValue?)
    && (VolumeUUIDKey in d ==> d[VolumeUUIDKey].UuidValue?)
    && (VolumePathKey in d ==> d[VolumePathKey].UrlValue? && d[VolumePathKey].url.isDirectory)
  }

  /** Unserialising undoes the key rewriting of serialisation. */
  lemma RewritingRoundTrip(d: Dictionary)
    requires RoundTrippable(d)
    ensures UnserializedForm(SerializationCopy(d)) == d
  {
    var back := UnserializedForm(SerializationCopy(d));
    forall k | k in d
      ensures back[k] == d[k]
    {
      ValueRoundTrip(k, d[k]);
    }
  }

  /** Under each key, unserialising a value undoes its serialisation when
      the value has the type the daemon stores under that key. */
  lemma ValueRoundTrip(key: string, v: Value)
    requires (key == MediaUUIDKey || key == VolumeUUIDKey) ==> v.UuidValue?
    requires key == VolumePathKey ==> v.UrlValue? && v.url.isDirectory
    ensures UnserializedValue(key, SerializedValue(key, v)) == v
  {
    if key == MediaUUIDKey || key == VolumeUUIDKey {
      UuidRoundTrip(v.uuid);
    }
  }

  /** With a plist reader that reads back what the writer wrote, a serialised
      description unserialises to itself. */
  lemma DescriptionRoundTrip(write: Value -> Option<CString>, read: CString -> Option<Value>, d: Dictionary)
    requires forall p :: write(p).Some? ==> read(write(p).value) == Some(p)
    requires RoundTrippable(d)
    requires SerializeDiskDescription(write, Some(d)).Some?
    ensures read(SerializeDiskDescription(write, Some(d)).value) == Some(Dict(SerializationCopy(d)))
    ensures UnserializedForm(SerializationCopy(d)) == d
  {
    RewritingRoundTrip(d);
  }

  // ---------------------------------------------------------------------
  // _DAVolumeCopyID, _DAVolumeGetID

  const DevPrefix: CString := Ascii("/dev/")
  const OwnerInfix: CString := Ascii("?owner=")

  predicate HasPrefix(s: CString, prefix: CString) {
    |prefix| <= |s| && s[..|prefix|] == prefix
  }

  /** _DAVolumeCopyID: a volume mounted from a /dev node is identified by
      that node; any other volume by its mount point and owner,
      "<mount point>?owner=<uid>". */
  function VolumeCopyID(fs: StatFs): (id: CString)
    ensures HasPrefix(CStr(fs.mntFromName), DevPrefix) ==> id == CStr(fs.mntFromName)
    ensures !HasPrefix(CStr(fs.mntFromName), DevPrefix) ==>
              var n := |CStr(fs.mntOnName)|;
              && |id| > n + |OwnerInfix|
              && id[..n] == CStr(fs.mntOnName)
              && id[n..n + |OwnerInfix|] == OwnerInfix
              && id[n + |OwnerInfix|..] == DecimalString(fs.owner)
  {
    if !HasPrefix(CStr(fs.mntFromName), DevPrefix) then
      CStr(fs.mntOnName) + OwnerInfix + DecimalString(fs.owner)
    else
      CStr(fs.mntFromName)
  }

  /** Two non-device volumes whose mount points contain no '?' have the
      same identifier only when both mount point and owner agree. */
  lemma VolumeIDDeterminesMount(a: StatFs, b: StatFs)
    requires !HasPrefix(CStr(a.mntFromName), DevPrefix) && !HasPrefix(CStr(b.mntFromName), DevPrefix)
    requires '?' as int !in CStr(a.mntOnName) && '?' as int !in CStr(b.mntOnName)
    requires VolumeCopyID(a) == VolumeCopyID(b)
    ensures CStr(a.mntOnName) == CStr(b.mntOnName) && a.owner == b.owner
  {
    var id := VolumeCopyID(a);
    var on1, on2 := CStr(a.mntOnName), CStr(b.mntOnName);
    assert OwnerInfix[0] == '?' as int;
    assert id[|on1|] == '?' as int;
    assert VolumeCopyID(b)[|on2|] == '?' as int;
    assert |on1| == |on2|;
    assert on1 == id[..|on1|] == on2;
    DecimalRoundTrip(a.owner);
    DecimalRoundTrip(b.owner);
  }

  /** sizeof(f_mntonname) + strlen("?owner=") + strlen("4294967295") */
  const VolumeIDBufferSize: nat := MNAMELEN + 7 + 10

  /** _DAVolumeGetID: formats the same identifier as _DAVolumeCopyID into its
      static buffer `id`, which is always large enough for it and its NUL. */
  method VolumeGetID(fs: StatFs, id: array<byte>)
    requires WellFormed(fs) && id.Length == VolumeIDBufferSize
    modifies id
    ensures |VolumeCopyID(fs)| < id.Length
    ensures id[..|VolumeCopyID(fs)|] == VolumeCopyID(fs) && id[|VolumeCopyID(fs)|] == 0
  {
    VolumeIDFits(fs);
    CopyCString(VolumeCopyID(fs), id);
  }

  /** The identifier of a well-formed mount entry, with its NUL, fits the
      static buffer: both names are shorter than MNAMELEN and an owner takes
      at most ten digits. */
  lemma VolumeIDFits(fs: StatFs)
    requires WellFormed(fs)
    ensures |VolumeCopyID(fs)| < VolumeIDBufferSize
  {
    CStrOfCString(fs.mntOnName);
    CStrOfCString(fs.mntFromName);
    UInt32DecimalLength(fs.owner);
  }

  /** sprintf "%s" of a string into a buffer it fits: the bytes, then a NUL. */
  method CopyCString(s: CString, buffer: array<byte>)
    requires |s| < buffer.Length
    modifies buffer
    ensures buffer[..|s|] == s && buffer[|s|] == 0
  {
    var i := 0;
    while i < |s|
      invariant 0 <= i <= |s|
      invariant buffer[..i] == s[..i]
    {
      buffer[i] := s[i];
      i := i + 1;
    }
    buffer[i] := 0;
    assert buffer[..i] == s;
  }
}
