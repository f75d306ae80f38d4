/** The two disk builders of DADisk.c: DADiskCreateFromIOMedia, which turns
    an I/O Registry media entry into a disk or fails as a whole, and
    DADiskCreateFromVolumePath, which makes a disk for a mounted volume.
    Each is a method that fills a fresh Disk step by step, proved equal to a
    specification function on DiskImage values; the lemmas state what the
    source promises about those functions. */
module DiskBuilders {
  import opened Wrappers
  import opened CFTypes
  import opened Platform
  import opened Registry
  import opened DAInternal
  import opened DADisk

  // ---------------------------------------------------------------------
  // IOKit names (the IOKit headers are not part of this model; these are
  // the strings the IOKit headers define).

  const IOBSDNameKey: string := "BSD Name"
  const IOBSDMajorKey: string := "BSD Major"
  const IOBSDMinorKey: string := "BSD Minor"
  const IOBSDUnitKey: string := "BSD Unit"
  const IOMediaPreferredBlockSizeKey: string := "Preferred Block Size"
  const IOMediaContentKey: string := "Content"
  const IOMediaEjectableKey: string := "Ejectable"
  const IOMediaIconKey: string := "IOMediaIcon"
  const IOMediaLeafKey: string := "Leaf"
  const IOMediaRemovableKey: string := "Removable"
  const IOMediaSizeKey: string := "Size"
  const IOMediaWholeKey: string := "Whole"
  const IOMediaWritableKey: string := "Writable"
  /** kIODVDMediaTypeKey and kIOCDMediaTypeKey are the same string. */
  const IOMediaTypeKey: string := "Type"

  const IODVDMediaClass: string := "IODVDMedia"
  const IOCDMediaClass: string := "IOCDMedia"
  const IOMediaClass: string := "IOMedia"

  const ProtocolCharacteristicsKey: string := "Protocol Characteristics"
  const PhysicalInterconnectLocationKey: string := "Physical Interconnect Location"
  const PhysicalInterconnectTypeKey: string := "Physical Interconnect"
  const InternalLocation: string := "Internal"
  const ExternalLocation: string := "External"
  const DeviceCharacteristicsKey: string := "Device Characteristics"
  const ProductNameKey: string := "Product Name"
  const ProductRevisionLevelKey: string := "Product Revision Level"
  const VendorNameKey: string := "Vendor Name"

  const UnitProperty: string := "IOUnit"
  const GUIDProperty: string := "GUID"
  const AutoDiskMountProperty: string := "autodiskmount"
  const EjectUponLogoutProperty: string := "eject-upon-logout"
  const OwnerUIDProperty: string := "owner-uid"
  const OwnerModeProperty: string := "owner-mode"

  /** sizeof(io_name_t) */
  const IONameSize: nat := 128

  const RawInfix: CString := Ascii("r")

  /** The media entry as the property tables of the model mandate: every
      key DADiskCreateFromIOMedia refuses to go on without. */
  const MandatoryMediaKeys: set<string> := {
    IOBSDNameKey, IOMediaPreferredBlockSizeKey, IOBSDMajorKey, IOBSDMinorKey, IOBSDUnitKey,
    IOMediaContentKey, IOMediaEjectableKey, IOMediaLeafKey, IOMediaRemovableKey,
    IOMediaSizeKey, IOMediaWholeKey, IOMediaWritableKey }

  // ---------------------------------------------------------------------
  // Conversions.

  /** CFStringGetCString(object, buffer, size, kCFStringEncodingUTF8): fails
      for a value that is not a string, for text UTF-8 cannot encode, and
      when the bytes and their NUL do not fit the buffer. */
  function GetCString(host: Host, v: Value, size: nat): (r: Option<CString>)
    ensures r.Some? ==> 0 !in r.value && |r.value| < size
  {
    match v
    case Str(text) =>
      var bytes :- host.encodeUTF8(text);
      if |bytes| < size then Some(CStr(bytes)) else None
    case _ => None
  }

  /** CFStringCreateWithCString with kCFStringEncodingUTF8, falling back to
      kCFStringEncodingMacRoman. */
  function DecodeWithFallback(host: Host, bytes: CString): Option<string> {
    match host.decodeUTF8(CStr(bytes))
    case Some(text) => Some(text)
    case None => host.decodeMacRoman(CStr(bytes))
  }

  /** CFNumberGetValue(object, kCFNumberSInt32Type, &field): a number is
      stored truncated to 32 bits; anything else leaves the field as it was. */
  function NumberAsSInt32(v: Value, prior: int): int {
    match v
    case Number(n) => ToSInt32(n)
    case _ => prior
  }

  /** OSSwapHostToBigInt64 followed by CFDataCreate of its eight bytes: the
      value's bytes, most significant first. */
  function BigEndianBytes(v: nat, width: nat): (r: seq<byte>)
    ensures |r| == width
  {
    if width == 0 then [] else BigEndianBytes(v / 256, width - 1) + [v % 256]
  }

  /** The number a sequence of bytes spells, most significant first. */
  function BigEndianValue(s: seq<byte>): nat {
    if s == [] then 0 else BigEndianValue(s[..|s| - 1]) * 256 + s[|s| - 1]
  }

  function Pow256(width: nat): nat {
    if width == 0 then 1 else 256 * Pow256(width - 1)
  }

  /** The GUID bytes spell the GUID back. */
  lemma {:induction false} BigEndianRoundTrip(v: nat, width: nat)
    requires v < Pow256(width)
    ensures BigEndianValue(BigEndianBytes(v, width)) == v
  {
    if width > 0 {
      var s := BigEndianBytes(v, width);
      assert s[..|s| - 1] == BigEndianBytes(v / 256, width - 1);
      assert v / 256 < Pow256(width - 1);
      BigEndianRoundTrip(v / 256, width - 1);
    }
  }

  /** Optional description entries: stored when the registry has a value. */
  function PutIfPresent(d: Dictionary, key: string, v: Option<Value>): (r: Dictionary)
    ensures Lookup(r, key) == (if v.Some? then v else Lookup(d, key))
    ensures forall k :: k != key ==> Lookup(r, k) == Lookup(d, k)
  {
    match v
    case Some(x) => d[key := x]
    case None => d
  }

  // ---------------------------------------------------------------------
  // DADiskCreateFromIOMedia, stage by stage.

  /** The description keys each stage writes. */
  const MediaNodeKeys: set<string> := {MediaBlockSizeKey, MediaBSDNameKey, MediaBSDMajorKey, MediaBSDMinorKey}
  const MediaUnitKeys: set<string> := {MediaBSDUnitKey, MediaContentKey, MediaEjectableKey}
  const MediaKindKeys: set<string> := {MediaIconKey, MediaKindKey, MediaTypeKey, MediaLeafKey}
  const MediaNameKeys: set<string> := {MediaNameKey, MediaPathKey, MediaRemovableKey, MediaSizeKey, MediaWholeKey, MediaWritableKey}

  const DeviceKeys: set<string> := {DeviceInternalKey, DeviceProtocolKey, DeviceModelKey, DeviceRevisionKey,
                                     DeviceVendorKey, DevicePathKey, DeviceUnitKey, DeviceGUIDKey}
  const BusKeys: set<string> := {BusNameKey, BusPathKey}
  const MediaKeys: set<string> := MediaNodeKeys + MediaUnitKeys + MediaKindKeys + MediaNameKeys

  /** Bytes that are present and read as UTF-8 up to their NUL. */
  predicate Utf8Decodes(host: Host, bytes: Option<CString>) {
    bytes.Some? && host.decodeUTF8(CStr(bytes.value)).Some?
  }

  /** Bytes that are present and read as UTF-8 or else as MacRoman. */
  predicate FallbackDecodes(host: Host, bytes: Option<CString>) {
    bytes.Some? && DecodeWithFallback(host, bytes.value).Some?
  }

  /** The media path: its device-tree path, or else its service-plane path. */
  function MediaPathBytes(media: Node): Option<CString> {
    if media.deviceTreePath.Some? then media.deviceTreePath else media.servicePath
  }

  /** An entry of a characteristics sub-dictionary, when that is a dictionary. */
  function SubProperty(sub: Option<Value>, key: string): Option<Value> {
    match sub
    case Some(Dict(s)) => Lookup(s, key)
    case _ => None
  }

  /** The bus above the device, if there is one, has a name and a path
      that read as UTF-8. */
  predicate BusDecodes(host: Host, ancestors: seq<Node>, device: nat)
    requires device < |ancestors|
  {
    match FirstIndex(ancestors, device + 1, InDeviceTree)
    case Some(b) => b < |ancestors| && Utf8Decodes(host, ancestors[b].deviceTreeName) && Utf8Decodes(host, ancestors[b].deviceTreePath)
    case None => true
  }

  /** The kind is chosen by priority: DVD, then CD, then generic media. */
  function MediaKind(media: Node): (kind: string)
    ensures kind == IODVDMediaClass <==> IODVDMediaClass in media.classes
    ensures kind == IOCDMediaClass <==> IODVDMediaClass !in media.classes && IOCDMediaClass in media.classes
    ensures kind == IOMediaClass <==> IODVDMediaClass !in media.classes && IOCDMediaClass !in media.classes
  {
    if IODVDMediaClass in media.classes then IODVDMediaClass
    else if IOCDMediaClass in media.classes then IOCDMediaClass
    else IOMediaClass
  }

  /** What lines 268-283 add to the new disk: its device URL, block and raw
      paths, media entry and DAVolumeNetwork = false. */
  function Attached(img: DiskImage, media: Node, name: CString, url: string): DiskImage {
    img.(device := Some(Url(url, false)),
         cookedPath := Some(DevPrefix + name),
         rawPath := Some(DevPrefix + RawInfix + name),
         media := Some(media),
         description := img.description[VolumeNetworkKey := Bool(false)])
  }

  /** The disk as lines 249-283 make it: the media properties must be
      readable, and the BSD name must be a string that fits io_name_t and
      makes a URL. */
  function IdentifiedImage(host: Host, media: Node): (r: Option<DiskImage>)
    ensures r.Some? <==> && media.propertiesReadable && BSDName(host, media).Some?
                         && host.decodeUTF8(DevPrefix + BSDName(host, media).value).Some?
  {
    var readable := Need(media.propertiesReadable);
    if readable.IsFailure() then readable.PropagateFailure()
    else
      var bsdName :- Lookup(media.properties, IOBSDNameKey);
      var name :- GetCString(host, bsdName, IONameSize);
      var url :- host.decodeUTF8(DevPrefix + name);
      Some(Attached(Defaults(DevPrefix + name), media, name, url))
  }

  /** The media type entry, which DVD and CD media must have. */
  function WithMediaType(props: Dictionary, d: Dictionary): Option<Dictionary> {
    var t :- Lookup(props, IOMediaTypeKey);
    Some(d[MediaTypeKey := t])
  }

  /** The block size, BSD name, major and minor entries, the two numbers
      making the device node (lines 289-321), all mandatory. */
  function MediaNodeEntries(host: Host, props: Dictionary, img: DiskImage): (r: Option<DiskImage>)
    ensures r.Some? <==> {IOMediaPreferredBlockSizeKey, IOBSDNameKey, IOBSDMajorKey, IOBSDMinorKey} <= props.Keys
    ensures r.Some? ==> r.value == img.(description := r.value.description, deviceNode := r.value.deviceNode)
    ensures r.Some? ==> && Lookup(r.value.description, MediaBlockSizeKey) == Lookup(props, IOMediaPreferredBlockSizeKey)
                        && Lookup(r.value.description, MediaBSDNameKey) == Lookup(props, IOBSDNameKey)
                        && Lookup(r.value.description, MediaBSDMajorKey) == Lookup(props, IOBSDMajorKey)
                        && Lookup(r.value.description, MediaBSDMinorKey) == Lookup(props, IOBSDMinorKey)
                        && r.value.deviceNode == host.makeDevice(props[IOBSDMajorKey], props[IOBSDMinorKey])
    ensures r.Some? ==> forall k :: k !in MediaNodeKeys ==> Lookup(r.value.description, k) == Lookup(img.description, k)
  {
    var blockSize :- Lookup(props, IOMediaPreferredBlockSizeKey);
    var d1 := img.description[MediaBlockSizeKey := blockSize];
    var bsdName :- Lookup(props, IOBSDNameKey);
    var d2 := d1[MediaBSDNameKey := bsdName];
    var major :- Lookup(props, IOBSDMajorKey);
    var d3 := d2[MediaBSDMajorKey := major];
    var minor :- Lookup(props, IOBSDMinorKey);
    Some(img.(description := d3[MediaBSDMinorKey := minor],
              deviceNode := host.makeDevice(major, minor)))
  }

  /** The unit (also kept as the disk's SInt32 unit), content and ejectable
      entries (lines 327-350), all mandatory. */
  function MediaUnitEntries(props: Dictionary, img: DiskImage): (r: Option<DiskImage>)
    ensures r.Some? <==> {IOBSDUnitKey, IOMediaContentKey, IOMediaEjectableKey} <= props.Keys
    ensures r.Some? ==> r.value == img.(description := r.value.description, deviceUnit := r.value.deviceUnit)
    ensures r.Some? ==> && Lookup(r.value.description, MediaBSDUnitKey) == Lookup(props, IOBSDUnitKey)
                        && Lookup(r.value.description, MediaContentKey) == Lookup(props, IOMediaContentKey)
                        && Lookup(r.value.description, MediaEjectableKey) == Lookup(props, IOMediaEjectableKey)
                        && r.value.deviceUnit == NumberAsSInt32(props[IOBSDUnitKey], img.deviceUnit)
    ensures r.Some? ==> forall k :: k !in MediaUnitKeys ==> Lookup(r.value.description, k) == Lookup(img.description, k)
  {
    var unit :- Lookup(props, IOBSDUnitKey);
    var d1 := img.description[MediaBSDUnitKey := unit];
    var content :- Lookup(props, IOMediaContentKey);
    var d2 := d1[MediaContentKey := content];
    var ejectable :- Lookup(props, IOMediaEjectableKey);
    Some(img.(description := d2[MediaEjectableKey := ejectable],
              deviceUnit := NumberAsSInt32(unit, img.deviceUnit)))
  }

  /** The media icon (searched upwards from the media), kind, type and leaf
      entries (lines 356-414). */
  function MediaKindEntries(media: Node, ancestors: seq<Node>, img: DiskImage): (r: Option<DiskImage>)
    ensures r.Some? <==> && SearchProperty([media] + ancestors, IOMediaIconKey).Some?
                         && (MediaKind(media) != IOMediaClass ==> IOMediaTypeKey in media.properties)
                         && IOMediaLeafKey in media.properties
    ensures r.Some? ==> r.value == img.(description := r.value.description)
    ensures r.Some? ==> && Lookup(r.value.description, MediaKindKey) == Some(Str(MediaKind(media)))
                        && Lookup(r.value.description, MediaIconKey) == SearchProperty([media] + ancestors, IOMediaIconKey)
                        && (MediaKind(media) != IOMediaClass ==>
                              Lookup(r.value.description, MediaTypeKey) == Lookup(media.properties, IOMediaTypeKey))
                        && Lookup(r.value.description, MediaLeafKey) == Lookup(media.properties, IOMediaLeafKey)
    ensures r.Some? ==> forall k :: k !in MediaKindKeys || (k == MediaTypeKey && MediaKind(media) == IOMediaClass) ==>
                          Lookup(r.value.description, k) == Lookup(img.description, k)
  {
    var props := media.properties;
    var icon :- SearchProperty([media] + ancestors, IOMediaIconKey);
    var d1 := img.description[MediaIconKey := icon];
    var kind := MediaKind(media);
    var d2 := d1[MediaKindKey := Str(kind)];
    var d3 :- if kind == IOMediaClass then Some(d2) else WithMediaType(props, d2);
    var leaf :- Lookup(props, IOMediaLeafKey);
    Some(img.(description := d3[MediaLeafKey := leaf]))
  }

  /** The media name and path, each decoded as UTF-8 or else MacRoman, the
      path taken from the device-tree plane or else the service plane, then
      the removable, size, whole and writable entries (lines 420-479). */
  function MediaNameEntries(host: Host, media: Node, img: DiskImage): (r: Option<DiskImage>)
    ensures r.Some? <==> && FallbackDecodes(host, media.name) && FallbackDecodes(host, MediaPathBytes(media))
                         && {IOMediaRemovableKey, IOMediaSizeKey, IOMediaWholeKey, IOMediaWritableKey} <= media.properties.Keys
    ensures r.Some? ==> r.value == img.(description := r.value.description)
    ensures r.Some? ==> && Lookup(r.value.description, MediaNameKey) == Some(Str(DecodeWithFallback(host, media.name.value).value))
                        && Lookup(r.value.description, MediaPathKey) == Some(Str(DecodeWithFallback(host, MediaPathBytes(media).value).value))
                        && Lookup(r.value.description, MediaRemovableKey) == Lookup(media.properties, IOMediaRemovableKey)
                        && Lookup(r.value.description, MediaSizeKey) == Lookup(media.properties, IOMediaSizeKey)
                        && Lookup(r.value.description, MediaWholeKey) == Lookup(media.properties, IOMediaWholeKey)
                        && Lookup(r.value.description, MediaWritableKey) == Lookup(media.properties, IOMediaWritableKey)
    ensures r.Some? ==> forall k :: k !in MediaNameKeys ==> Lookup(r.value.description, k) == Lookup(img.description, k)
  {
    var props := media.properties;
    var nameBytes :- media.name;
    var nameText :- DecodeWithFallback(host, nameBytes);
    var d1 := img.description[MediaNameKey := Str(nameText)];
    var pathBytes :- MediaPathBytes(media);
    var pathText :- DecodeWithFallback(host, pathBytes);
    var d2 := d1[MediaPathKey := Str(pathText)];
    var removable :- Lookup(props, IOMediaRemovableKey);
    var d3 := d2[MediaRemovableKey := removable];
    var size :- Lookup(props, IOMediaSizeKey);
    var d4 := d3[MediaSizeKey := size];
    var whole :- Lookup(props, IOMediaWholeKey);
    var d5 := d4[MediaWholeKey := whole];
    var writable :- Lookup(props, IOMediaWritableKey);
    Some(img.(description := d5[MediaWritableKey := writable]))
  }

  /** The whole media description (lines 289-479). */
  function MediaDescription(host: Host, media: Node, ancestors: seq<Node>, img: DiskImage): Option<DiskImage> {
    var img1 :- MediaNodeEntries(host, media.properties, img);
    var img2 :- MediaUnitEntries(media.properties, img1);
    var img3 :- MediaKindEntries(media, ancestors, img2);
    MediaNameEntries(host, media, img3)
  }

  /** The protocol characteristics of the block device: DADeviceInternal
      from an "Internal" or "External" location (any other location adds
      nothing), DADeviceProtocol from the interconnect type. */
  function ProtocolEntries(sub: Option<Value>, d: Dictionary): (r: Dictionary)
    ensures var location := SubProperty(sub, PhysicalInterconnectLocationKey);
            Lookup(r, DeviceInternalKey) ==
              if location == Some(Str(InternalLocation)) then Some(Bool(true))
              else if location == Some(Str(ExternalLocation)) then Some(Bool(false))
              else Lookup(d, DeviceInternalKey)
    ensures var protocol := SubProperty(sub, PhysicalInterconnectTypeKey);
            Lookup(r, DeviceProtocolKey) == if protocol.Some? then protocol else Lookup(d, DeviceProtocolKey)
    ensures forall k :: k != DeviceInternalKey && k != DeviceProtocolKey ==> Lookup(r, k) == Lookup(d, k)
  {
    match sub
    case Some(Dict(s)) =>
      var d1 :=
        match Lookup(s, PhysicalInterconnectLocationKey)
        case Some(Str(location)) =>
          if location == InternalLocation then d[DeviceInternalKey := Bool(true)]
          else if location == ExternalLocation then d[DeviceInternalKey := Bool(false)]
          else d
        case _ => d;
      PutIfPresent(d1, DeviceProtocolKey, Lookup(s, PhysicalInterconnectTypeKey))
    case _ => d
  }

  /** The device characteristics: model, revision and vendor, each optional. */
  function CharacteristicsEntries(sub: Option<Value>, d: Dictionary): (r: Dictionary)
    ensures var model := SubProperty(sub, ProductNameKey);
            Lookup(r, DeviceModelKey) == if model.Some? then model else Lookup(d, DeviceModelKey)
    ensures var revision := SubProperty(sub, ProductRevisionLevelKey);
            Lookup(r, DeviceRevisionKey) == if revision.Some? then revision else Lookup(d, DeviceRevisionKey)
    ensures var vendor := SubProperty(sub, VendorNameKey);
            Lookup(r, DeviceVendorKey) == if vendor.Some? then vendor else Lookup(d, DeviceVendorKey)
    ensures forall k :: k != DeviceModelKey && k != DeviceRevisionKey && k != DeviceVendorKey ==> Lookup(r, k) == Lookup(d, k)
  {
    match sub
    case Some(Dict(s)) =>
      var d1 := PutIfPresent(d, DeviceModelKey, Lookup(s, ProductNameKey));
      var d2 := PutIfPresent(d1, DeviceRevisionKey, Lookup(s, ProductRevisionLevelKey));
      PutIfPresent(d2, DeviceVendorKey, Lookup(s, VendorNameKey))
    case _ => d
  }

  /** The GUID entry: a number becomes its eight big-endian bytes. */
  function GUIDEntry(guid: Option<Value>, d: Dictionary): (r: Dictionary)
    ensures guid.Some? && guid.value.Number? ==>
              && Lookup(r, DeviceGUIDKey) == Some(Data(BigEndianBytes(ToUInt64(guid.value.n), 8)))
              && BigEndianValue(BigEndianBytes(ToUInt64(guid.value.n), 8)) == ToUInt64(guid.value.n)
    ensures !(guid.Some? && guid.value.Number?) ==> Lookup(r, DeviceGUIDKey) == Lookup(d, DeviceGUIDKey)
    ensures forall k :: k != DeviceGUIDKey ==> Lookup(r, k) == Lookup(d, k)
  {
    match guid
    case Some(Number(n)) =>
      BigEndianRoundTrip(ToUInt64(n), 8);
      d[DeviceGUIDKey := Data(BigEndianBytes(ToUInt64(n), 8))]
    case _ => d
  }

  /** The entries from the device's protocol and device characteristics
      (lines 515-593), none of them mandatory. */
  function DeviceCharacteristics(device: Node, img: DiskImage): DiskImage {
    var img1 := img.(description := ProtocolEntries(Lookup(device.properties, ProtocolCharacteristicsKey), img.description));
    img1.(description := CharacteristicsEntries(Lookup(device.properties, DeviceCharacteristicsKey), img1.description))
  }

  /** The device path (mandatory), unit and GUID (both searched upwards from
      the device) entries (lines 599-648). */
  function DeviceLocation(host: Host, chain: seq<Node>, img: DiskImage): (r: Option<DiskImage>)
    requires |chain| > 0
    ensures r.Some? <==> Utf8Decodes(host, chain[0].servicePath)
    ensures r.Some? ==> r.value == img.(description := r.value.description)
    ensures r.Some? ==>
              && Lookup(r.value.description, DevicePathKey) == Some(Str(host.decodeUTF8(CStr(chain[0].servicePath.value)).value))
              && var unit := SearchProperty(chain, UnitProperty);
                 Lookup(r.value.description, DeviceUnitKey) == if unit.Some? then unit else Lookup(img.description, DeviceUnitKey)
    ensures r.Some? ==> var guid := SearchProperty(chain, GUIDProperty);
                        Lookup(r.value.description, DeviceGUIDKey) ==
                          if guid.Some? && guid.value.Number? then Some(Data(BigEndianBytes(ToUInt64(guid.value.n), 8)))
                          else Lookup(img.description, DeviceGUIDKey)
    ensures r.Some? ==> forall k :: k != DevicePathKey && k != DeviceUnitKey && k != DeviceGUIDKey ==>
                          Lookup(r.value.description, k) == Lookup(img.description, k)
  {
    var pathBytes :- chain[0].servicePath;
    var pathText :- host.decodeUTF8(CStr(pathBytes));
    var d1 := img.description[DevicePathKey := Str(pathText)];
    var d2 := PutIfPresent(d1, DeviceUnitKey, SearchProperty(chain, UnitProperty));
    Some(img.(description := GUIDEntry(SearchProperty(chain, GUIDProperty), d2)))
  }

  /** The block-device description (lines 508-648). `chain` is the device
      followed by its parents; its properties must be readable. */
  function DeviceDescription(host: Host, chain: seq<Node>, img: DiskImage): (r: Option<DiskImage>)
    requires |chain| > 0
    ensures r.Some? <==> chain[0].propertiesReadable && Utf8Decodes(host, chain[0].servicePath)
  {
    var readable := Need(chain[0].propertiesReadable);
    if readable.IsFailure() then readable.PropagateFailure()
    else DeviceLocation(host, chain, DeviceCharacteristics(chain[0], img))
  }

  /** The bus description (lines 657-701): the first parent of the device
      in the device-tree plane, if any, must yield a name and a path. */
  function BusDescription(host: Host, ancestors: seq<Node>, device: nat, img: DiskImage): (r: Option<DiskImage>)
    requires device < |ancestors|
    ensures r.Some? <==> BusDecodes(host, ancestors, device)
    ensures r.Some? ==> r.value == img.(description := r.value.description)
    ensures FirstIndex(ancestors, device + 1, InDeviceTree).None? ==> r == Some(img)
    ensures r.Some? ==>
              match FirstIndex(ancestors, device + 1, InDeviceTree)
              case Some(b) =>
                && Lookup(r.value.description, BusNameKey) == Some(Str(host.decodeUTF8(CStr(ancestors[b].deviceTreeName.value)).value))
                && Lookup(r.value.description, BusPathKey) == Some(Str(host.decodeUTF8(CStr(ancestors[b].deviceTreePath.value)).value))
                && forall k :: k != BusNameKey && k != BusPathKey ==> Lookup(r.value.description, k) == Lookup(img.description, k)
              case None => true
  {
    match FirstIndex(ancestors, device + 1, InDeviceTree)
    case None => Some(img)
    case Some(b) =>
      var bus := ancestors[b];
      var nameBytes :- bus.deviceTreeName;
      var nameText :- host.decodeUTF8(CStr(nameBytes));
      var pathBytes :- bus.deviceTreePath;
      var pathText :- host.decodeUTF8(CStr(pathBytes));
      Some(img.(description := img.description[BusNameKey := Str(nameText)][BusPathKey := Str(pathText)]))
  }

  /** The automatic-mount options (lines 719-734), or-ed into the options
      already set: no autodiskmount property gives MountAutomatic, a true one
      MountAutomatic and MountAutomaticNoDefer, any other value nothing. */
  function AutoMount(mediaChain: seq<Node>, img: DiskImage): DiskImage {
    var autoMount := SearchProperty(mediaChain, AutoDiskMountProperty);
    img.(options :=
      if autoMount.None? then img.options | OptionMountAutomatic
      else if autoMount.value == Bool(true) then img.options | (OptionMountAutomatic | OptionMountAutomaticNoDefer)
      else img.options)
  }

  /** The eject-upon-logout option (lines 740-751), set only by a true
      property. */
  function EjectUponLogout(deviceChain: seq<Node>, img: DiskImage): DiskImage {
    var eject := SearchProperty(deviceChain, EjectUponLogoutProperty);
    img.(options := if eject == Some(Bool(true)) then img.options | OptionEjectUponLogout else img.options)
  }

  /** The real owner falls back to the unknown user and group for
      removable media or an external device (lines 757-771). */
  function Demotion(img: DiskImage): DiskImage {
    img.(userRGID := if Demoted(img.description) then GID_UNKNOWN else img.userRGID,
         userRUID := if Demoted(img.description) then UID_UNKNOWN else img.userRUID)
  }

  /** The media is removable or its device is not internal. */
  predicate Demoted(description: Dictionary) {
    || Lookup(description, MediaRemovableKey) == Some(Bool(true))
    || Lookup(description, DeviceInternalKey) == Some(Bool(false))
  }

  /** All four credentials taken from a user's passwd entry. */
  function WithCredentials(img: DiskImage, user: Passwd): DiskImage {
    img.(userEGID := user.gid, userEUID := user.uid, userRGID := user.gid, userRUID := user.uid)
  }

  /** An owner-uid naming a known user sets all four credentials
      (lines 773-796). */
  function OwnerUser(host: Host, deviceChain: seq<Node>, img: DiskImage): DiskImage {
    match OwnerAccount(host, deviceChain)
    case Some(user) => WithCredentials(img, user)
    case None => img
  }

  /** The user an owner-uid number found from the device upwards names, as
      an int passed to getpwuid. */
  function OwnerAccount(host: Host, deviceChain: seq<Node>): Option<Passwd> {
    match SearchProperty(deviceChain, OwnerUIDProperty)
    case Some(Number(n)) => host.accounts.UserByID(ToUInt32(ToSInt32(n)))
    case _ => None
  }

  /** An owner-mode sets the mode, as an int stored into a mode_t
      (lines 798-812). */
  function OwnerMode(deviceChain: seq<Node>, img: DiskImage): DiskImage {
    match SearchProperty(deviceChain, OwnerModeProperty)
    case Some(Number(n)) => img.(mode := ToUInt16(ToSInt32(n)))
    case _ => img
  }

  /** Options and ownership (lines 719-812): `mediaChain` starts at the
      media, `deviceChain` at the block device. */
  function Ownership(host: Host, mediaChain: seq<Node>, deviceChain: seq<Node>, img: DiskImage): DiskImage {
    OwnerMode(deviceChain, OwnerUser(host, deviceChain, Demotion(EjectUponLogout(deviceChain, AutoMount(mediaChain, img)))))
  }

  /** The index of the block-storage device among the media's parents. */
  function DeviceIndex(ancestors: seq<Node>): Option<nat> {
    FirstIndex(ancestors, 0, IsBlockStorageDevice)
  }

  /** The disk once its media entries are in (lines 249-479). */
  function DescribedImage(host: Host, media: Node, ancestors: seq<Node>): Option<DiskImage> {
    var created :- IdentifiedImage(host, media);
    MediaDescription(host, media, ancestors, created)
  }

  /** DADiskCreateFromIOMedia as a value: the disk, or None where the source
      jumps to its error exit. `now` is the CFAbsoluteTimeGetCurrent reading. */
  function IOMediaImage(host: Host, media: Node, ancestors: seq<Node>, now: real): Option<DiskImage> {
    var placed :- PlacedImage(host, media, ancestors, now);
    var d :- DeviceIndex(ancestors);
    Some(Ownership(host, [media] + ancestors, ancestors[d..], placed))
  }

  /** The disk once its device and bus entries and its appearance time are
      in (lines 249-712), before options and ownership. */
  function PlacedImage(host: Host, media: Node, ancestors: seq<Node>, now: real): Option<DiskImage> {
    var described :- DescribedImage(host, media, ancestors);
    var d :- DeviceIndex(ancestors);
    var withDevice :- DeviceDescription(host, ancestors[d..], described);
    var withBus :- BusDescription(host, ancestors, d, withDevice);
    Some(withBus.(description := withBus.description[AppearanceTimeKey := Double(now)]))
  }

  // ---------------------------------------------------------------------
  // DADiskCreateFromVolumePath.

  /** The bypath and the volume entries of a disk made for a mounted
      volume (lines 855-868): the path, mountable, and networked unless the
      mount is local. */
  function VolumeEntries(url: Url, fs: StatFs, img: DiskImage): DiskImage {
    var network := if fs.flags & MNT_LOCAL != 0 then Bool(false) else Bool(true);
    img.(bypath := Some(url),
         description := img.description[VolumePathKey := UrlValue(url)]
                                        [VolumeMountableKey := Bool(true)]
                                        [VolumeNetworkKey := network])
  }

  /** All six staged-state bits or-ed in (lines 870-875). */
  function Staged(img: DiskImage): DiskImage {
    img.(state := img.state | StateStagedProbe | StateStagedPeek | StateStagedRepair
                            | StateStagedApprove | StateStagedAuthorize | StateStagedMount)
  }

  /** The disk made for a mounted volume: identified by its mount point,
      with the volume entries, every stage marked done, and owned by the
      mount's owner when that user exists. */
  function VolumeDisk(host: Host, url: Url, fs: StatFs): DiskImage {
    var img := Staged(VolumeEntries(url, fs, Defaults(CStr(fs.mntOnName))));
    match host.accounts.UserByID(fs.owner)
    case Some(user) => WithCredentials(img, user)
    case None => img
  }

  /** DADiskCreateFromVolumePath as a value, over the mount table getfsstat
      returns and the effective uid: None for a NULL path, a path with no
      file-system representation, or a path nothing is mounted on. */
  function VolumePathImage(host: Host, path: Option<Url>, mounts: seq<StatFs>, euid: uint32): Option<DiskImage> {
    var url :- path;
    var fileSystemPath :- URLCopyFileSystemRepresentation(host, path);
    var fs :- StatfsEntry(mounts, fileSystemPath, euid);
    Some(VolumeDisk(host, url, fs))
  }

  // ---------------------------------------------------------------------
  // What the builders promise.

  /** The BSD name the media disk is named after, when it has one. */
  function BSDName(host: Host, media: Node): Option<CString> {
    var bsdName :- Lookup(media.properties, IOBSDNameKey);
    GetCString(host, bsdName, IONameSize)
  }

  /** The chain searched from the block device: the device and its parents. */
  function DeviceChain(ancestors: seq<Node>): seq<Node> {
    match DeviceIndex(ancestors)
    case Some(d) => ancestors[d..]
    case None => []
  }

  /** A media disk is named "/dev/<BSD name>"; its block path is that same
      string and its raw path is "/dev/r<BSD name>"; it keeps the media entry
      and a URL of its device path that is not a directory. */
  lemma IOMediaIdentity(host: Host, media: Node, ancestors: seq<Node>, now: real)
    requires IOMediaImage(host, media, ancestors, now).Some?
    ensures BSDName(host, media).Some?
    ensures var disk := IOMediaImage(host, media, ancestors, now).value;
            var name := BSDName(host, media).value;
            && disk.id == DevPrefix + name
            && disk.cookedPath == Some(disk.id)
            && disk.rawPath == Some(DevPrefix + RawInfix + name)
            && disk.media == Some(media)
            && disk.device.Some? && !disk.device.value.isDirectory
  {
    var placed := PlacedImage(host, media, ancestors, now).value;
    var d := DeviceIndex(ancestors).value;
    IdentifiedNames(host, media);
    DescriptionKeepsFields(host, media, ancestors);
    PlacementKeepsFields(host, media, ancestors, now);
    OwnershipKeepsIdentity(host, [media] + ancestors, ancestors[d..], placed);
  }

  /** The fields that name a disk and tie it to its device alike. */
  predicate SameIdentity(a: DiskImage, b: DiskImage) {
    a.id == b.id && a.cookedPath == b.cookedPath && a.rawPath == b.rawPath && a.media == b.media && a.device == b.device
  }

  /** The options, state, mode and credentials alike. */
  predicate SameSettings(a: DiskImage, b: DiskImage) {
    && a.options == b.options && a.state == b.state && a.mode == b.mode
    && a.userEGID == b.userEGID && a.userEUID == b.userEUID
    && a.userRGID == b.userRGID && a.userRUID == b.userRUID
  }

  /** The naming fields as the identification stage sets them, with the
      settings a new disk starts with. */
  lemma IdentifiedNames(host: Host, media: Node)
    requires IdentifiedImage(host, media).Some?
    ensures BSDName(host, media).Some?
    ensures var img := IdentifiedImage(host, media).value;
            var name := BSDName(host, media).value;
            && img.id == DevPrefix + name
            && img.cookedPath == Some(img.id)
            && img.rawPath == Some(DevPrefix + RawInfix + name)
            && img.media == Some(media)
            && img.device.Some? && !img.device.value.isDirectory
            && SameSettings(Defaults(img.id), img)
  {
  }

  /** The media stages leave the naming fields and the settings alone. */
  lemma DescriptionKeepsFields(host: Host, media: Node, ancestors: seq<Node>)
    requires DescribedImage(host, media, ancestors).Some?
    ensures IdentifiedImage(host, media).Some?
    ensures var created := IdentifiedImage(host, media).value;
            var described := DescribedImage(host, media, ancestors).value;
            SameIdentity(created, described) && SameSettings(created, described)
  {
    var created := IdentifiedImage(host, media).value;
    var img1 := MediaNodeEntries(host, media.properties, created).value;
    var img2 := MediaUnitEntries(media.properties, img1).value;
    var img3 := MediaKindEntries(media, ancestors, img2).value;
    assert SameIdentity(created, img3) && SameSettings(created, img3);
  }

  /** The device, bus and appearance-time stages leave the naming fields
      and the settings alone. */
  lemma PlacementKeepsFields(host: Host, media: Node, ancestors: seq<Node>, now: real)
    requires PlacedImage(host, media, ancestors, now).Some?
    ensures DescribedImage(host, media, ancestors).Some?
    ensures var described := DescribedImage(host, media, ancestors).value;
            var placed := PlacedImage(host, media, ancestors, now).value;
            SameIdentity(described, placed) && SameSettings(described, placed)
  {
    var described := DescribedImage(host, media, ancestors).value;
    var d := DeviceIndex(ancestors).value;
    DeviceKeepsFields(host, ancestors[d..], described);
    var withDevice := DeviceDescription(host, ancestors[d..], described).value;
    var withBus := BusDescription(host, ancestors, d, withDevice).value;
    assert SameIdentity(withDevice, withBus) && SameSettings(withDevice, withBus);
  }

  /** The device stage leaves the naming fields and the settings alone. */
  lemma DeviceKeepsFields(host: Host, chain: seq<Node>, img: DiskImage)
    requires |chain| > 0
    requires DeviceDescription(host, chain, img).Some?
    ensures var r := DeviceDescription(host, chain, img).value;
            SameIdentity(img, r) && SameSettings(img, r)
  {
  }

  /** The option and ownership stages leave the naming fields and the
      description alone. */
  lemma OwnershipKeepsIdentity(host: Host, mediaChain: seq<Node>, deviceChain: seq<Node>, img: DiskImage)
    ensures var r := Ownership(host, mediaChain, deviceChain, img);
            SameIdentity(img, r) && r.description == img.description && r.state == img.state
  {
  }

  /** Starting from no options, the options set are MountAutomatic when
      the autodiskmount property is missing or true, MountAutomaticNoDefer
      when it is true, EjectUponLogout when that property is true, and no
      other. */
  lemma OwnershipOptions(host: Host, mediaChain: seq<Node>, deviceChain: seq<Node>, img: DiskImage)
    requires img.options == 0
    ensures var options := Ownership(host, mediaChain, deviceChain, img).options;
            var auto := SearchProperty(mediaChain, AutoDiskMountProperty);
            var eject := SearchProperty(deviceChain, EjectUponLogoutProperty);
            && (HasBits(options, OptionMountAutomatic) <==> auto.None? || auto == Some(Bool(true)))
            && (HasBits(options, OptionMountAutomaticNoDefer) <==> auto == Some(Bool(true)))
            && (HasBits(options, OptionEjectUponLogout) <==> eject == Some(Bool(true)))
            && options & !(OptionEjectUponLogout | OptionMountAutomatic | OptionMountAutomaticNoDefer) == 0
  {
    var auto := SearchProperty(mediaChain, AutoDiskMountProperty);
    var eject := SearchProperty(deviceChain, EjectUponLogoutProperty);
    var autoBits: bv32 := if auto.None? then OptionMountAutomatic
                          else if auto == Some(Bool(true)) then OptionMountAutomatic | OptionMountAutomaticNoDefer
                          else 0;
    var ejectBits: bv32 := if eject == Some(Bool(true)) then OptionEjectUponLogout else 0;
    OwnershipSetsOptionsFirst(host, mediaChain, deviceChain, img);
    assert AutoMount(mediaChain, img).options == autoBits;
    assert EjectUponLogout(deviceChain, AutoMount(mediaChain, img)).options == autoBits | ejectBits;
    OptionBitsCombined(autoBits, ejectBits);
  }

  /** The ownership stages after the two option stages leave the options. */
  lemma OwnershipSetsOptionsFirst(host: Host, mediaChain: seq<Node>, deviceChain: seq<Node>, img: DiskImage)
    ensures Ownership(host, mediaChain, deviceChain, img).options == EjectUponLogout(deviceChain, AutoMount(mediaChain, img)).options
  {
  }

  /** The option bits ownership can set, read back one by one. */
  lemma OptionBitsCombined(autoBits: bv32, ejectBits: bv32)
    requires autoBits == 0 || autoBits == OptionMountAutomatic || autoBits == OptionMountAutomatic | OptionMountAutomaticNoDefer
    requires ejectBits == 0 || ejectBits == OptionEjectUponLogout
    ensures HasBits(autoBits | ejectBits, OptionMountAutomatic) <==> autoBits != 0
    ensures HasBits(autoBits | ejectBits, OptionMountAutomaticNoDefer) <==> autoBits == OptionMountAutomatic | OptionMountAutomaticNoDefer
    ensures HasBits(autoBits | ejectBits, OptionEjectUponLogout) <==> ejectBits != 0
    ensures (autoBits | ejectBits) & !(OptionEjectUponLogout | OptionMountAutomatic | OptionMountAutomaticNoDefer) == 0
  {
  }

  /** A known owner-uid user gives all four credentials; otherwise the
      effective ones stay and the real ones fall to the unknown user and
      group when the media is removable or its device external. */
  lemma OwnershipCredentials(host: Host, mediaChain: seq<Node>, deviceChain: seq<Node>, img: DiskImage)
    ensures var r := Ownership(host, mediaChain, deviceChain, img);
            match OwnerAccount(host, deviceChain)
            case Some(user) =>
              r.userEUID == user.uid && r.userEGID == user.gid && r.userRUID == user.uid && r.userRGID == user.gid
            case None =>
              && r.userEUID == img.userEUID && r.userEGID == img.userEGID
              && r.userRUID == (if Demoted(img.description) then UID_UNKNOWN else img.userRUID)
              && r.userRGID == (if Demoted(img.description) then GID_UNKNOWN else img.userRGID)
  {
  }

  /** An owner-mode number sets the mode, cut to mode_t; otherwise it stays. */
  lemma OwnershipMode(host: Host, mediaChain: seq<Node>, deviceChain: seq<Node>, img: DiskImage)
    ensures Ownership(host, mediaChain, deviceChain, img).mode ==
            match SearchProperty(deviceChain, OwnerModeProperty)
            case Some(Number(n)) => ToUInt16(ToSInt32(n))
            case _ => img.mode
  {
  }

  /** The options, state, mode and credentials of a media disk: the ones
      above, starting from no options, no state, mode 0755 and root in
      group admin. */
  lemma IOMediaSettings(host: Host, media: Node, ancestors: seq<Node>, now: real)
    requires IOMediaImage(host, media, ancestors, now).Some?
    ensures DeviceIndex(ancestors).Some?
    ensures var disk := IOMediaImage(host, media, ancestors, now).value;
            var chain := DeviceChain(ancestors);
            var auto := SearchProperty([media] + ancestors, AutoDiskMountProperty);
            var eject := SearchProperty(chain, EjectUponLogoutProperty);
            && (HasBits(disk.options, OptionMountAutomatic) <==> auto.None? || auto == Some(Bool(true)))
            && (HasBits(disk.options, OptionMountAutomaticNoDefer) <==> auto == Some(Bool(true)))
            && (HasBits(disk.options, OptionEjectUponLogout) <==> eject == Some(Bool(true)))
            && disk.options & !(OptionEjectUponLogout | OptionMountAutomatic | OptionMountAutomaticNoDefer) == 0
            && disk.state == 0
            && disk.mode == (match SearchProperty(chain, OwnerModeProperty)
                             case Some(Number(n)) => ToUInt16(ToSInt32(n))
                             case _ => DefaultMode)
            && match OwnerAccount(host, chain)
               case Some(user) =>
                 disk.userEUID == user.uid && disk.userEGID == user.gid && disk.userRUID == user.uid && disk.userRGID == user.gid
               case None =>
                 && disk.userEUID == UID_ROOT && disk.userEGID == GID_ADMIN
                 && disk.userRUID == (if Demoted(disk.description) then UID_UNKNOWN else UID_ROOT)
                 && disk.userRGID == (if Demoted(disk.description) then GID_UNKNOWN else GID_ADMIN)
  {
    var placed := PlacedImage(host, media, ancestors, now).value;
    var d := DeviceIndex(ancestors).value;
    PlacedSettings(host, media, ancestors, now);
    OwnershipOfDefaults(host, [media] + ancestors, ancestors[d..], placed);
  }

  /** Until options and ownership are applied, a media disk keeps a new
      disk's settings. */
  lemma PlacedSettings(host: Host, media: Node, ancestors: seq<Node>, now: real)
    requires PlacedImage(host, media, ancestors, now).Some?
    ensures var placed := PlacedImage(host, media, ancestors, now).value;
            SameSettings(Defaults(placed.id), placed)
  {
    IdentifiedNames(host, media);
    DescriptionKeepsFields(host, media, ancestors);
    PlacementKeepsFields(host, media, ancestors, now);
  }

  /** Options and ownership applied to a disk with a new disk's settings. */
  lemma OwnershipOfDefaults(host: Host, mediaChain: seq<Node>, deviceChain: seq<Node>, img: DiskImage)
    requires SameSettings(Defaults(img.id), img)
    ensures var disk := Ownership(host, mediaChain, deviceChain, img);
            var auto := SearchProperty(mediaChain, AutoDiskMountProperty);
            var eject := SearchProperty(deviceChain, EjectUponLogoutProperty);
            && (HasBits(disk.options, OptionMountAutomatic) <==> auto.None? || auto == Some(Bool(true)))
            && (HasBits(disk.options, OptionMountAutomaticNoDefer) <==> auto == Some(Bool(true)))
            && (HasBits(disk.options, OptionEjectUponLogout) <==> eject == Some(Bool(true)))
            && disk.options & !(OptionEjectUponLogout | OptionMountAutomatic | OptionMountAutomaticNoDefer) == 0
            && disk.state == 0
            && disk.mode == (match SearchProperty(deviceChain, OwnerModeProperty)
                             case Some(Number(n)) => ToUInt16(ToSInt32(n))
                             case _ => DefaultMode)
            && match OwnerAccount(host, deviceChain)
               case Some(user) =>
                 disk.userEUID == user.uid && disk.userEGID == user.gid && disk.userRUID == user.uid && disk.userRGID == user.gid
               case None =>
                 && disk.userEUID == UID_ROOT && disk.userEGID == GID_ADMIN
                 && disk.userRUID == (if Demoted(disk.description) then UID_UNKNOWN else UID_ROOT)
                 && disk.userRGID == (if Demoted(disk.description) then GID_UNKNOWN else GID_ADMIN)
  {
    OwnershipKeepsIdentity(host, mediaChain, deviceChain, img);
    OwnershipOptions(host, mediaChain, deviceChain, img);
    OwnershipCredentials(host, mediaChain, deviceChain, img);
    OwnershipMode(host, mediaChain, deviceChain, img);
  }

  /** A media entry without any one of the mandatory properties, or whose
      properties cannot be read, yields no disk. */
  lemma IOMediaNeedsMandatoryKeys(host: Host, media: Node, ancestors: seq<Node>, now: real, key: string)
    requires !media.propertiesReadable || (key in MandatoryMediaKeys && key !in media.properties)
    ensures IOMediaImage(host, media, ancestors, now).None?
  {
    if IOMediaImage(host, media, ancestors, now).Some? {
      MandatoryKeysPresent(host, media, ancestors, now);
      assert false;
    }
  }

  /** A disk made from a media entry means its properties were readable and
      held every mandatory key, a media type too for DVD or CD media; that
      the media had a name and a path; and that an icon was found from the
      media upwards. */
  lemma MandatoryKeysPresent(host: Host, media: Node, ancestors: seq<Node>, now: real)
    requires IOMediaImage(host, media, ancestors, now).Some?
    ensures media.propertiesReadable && MandatoryMediaKeys <= media.properties.Keys
    ensures MediaKind(media) != IOMediaClass ==> IOMediaTypeKey in media.properties
    ensures media.name.Some? && (media.deviceTreePath.Some? || media.servicePath.Some?)
    ensures SearchProperty([media] + ancestors, IOMediaIconKey).Some?
  {
    IOMediaSucceeds(host, media, ancestors, now);
  }

  /** Everything the media entry must provide: readable properties, a BSD
      name that fits io_name_t and makes a device URL, every mandatory key
      (a media type too for DVD or CD media), an icon found from the media
      upwards, and a name and a path that read as text. */
  predicate MediaComplete(host: Host, media: Node, ancestors: seq<Node>) {
    && media.propertiesReadable
    && BSDName(host, media).Some? && host.decodeUTF8(DevPrefix + BSDName(host, media).value).Some?
    && MandatoryMediaKeys <= media.properties.Keys
    && (MediaKind(media) != IOMediaClass ==> IOMediaTypeKey in media.properties)
    && SearchProperty([media] + ancestors, IOMediaIconKey).Some?
    && FallbackDecodes(host, media.name) && FallbackDecodes(host, MediaPathBytes(media))
  }

  /** Everything the parents must provide: a block-storage device with
      readable properties and a service-plane path that reads as UTF-8,
      and, when a device-tree entry lies above it, that entry's name and
      path reading as UTF-8. */
  predicate DeviceComplete(host: Host, ancestors: seq<Node>) {
    match DeviceIndex(ancestors)
    case Some(d) =>
      && d < |ancestors|
      && ancestors[d].propertiesReadable && Utf8Decodes(host, ancestors[d].servicePath)
      && BusDecodes(host, ancestors, d)
    case None => false
  }

  /** The media stages succeed exactly when the media entry is complete. */
  lemma DescribedSucceeds(host: Host, media: Node, ancestors: seq<Node>)
    ensures DescribedImage(host, media, ancestors).Some? <==> MediaComplete(host, media, ancestors)
  {
    var created := IdentifiedImage(host, media);
    if created.Some? {
      MediaStagesSucceed(host, media, ancestors, created.value);
    }
  }

  /** The mandatory media properties are those the four media stages
      require between them. */
  lemma MandatoryKeysByStage(keys: set<string>)
    ensures MandatoryMediaKeys <= keys <==>
              && {IOMediaPreferredBlockSizeKey, IOBSDNameKey, IOBSDMajorKey, IOBSDMinorKey} <= keys
              && {IOBSDUnitKey, IOMediaContentKey, IOMediaEjectableKey} <= keys
              && IOMediaLeafKey in keys
              && {IOMediaRemovableKey, IOMediaSizeKey, IOMediaWholeKey, IOMediaWritableKey} <= keys
  {
  }

  /** Whatever disk they start from, the media stages succeed exactly when
      the media provides every mandatory key, its type when it is DVD or CD
      media, an icon from the media upwards, and a name and path that read
      as text. */
  lemma MediaStagesSucceed(host: Host, media: Node, ancestors: seq<Node>, img: DiskImage)
    ensures MediaDescription(host, media, ancestors, img).Some? <==>
              && MandatoryMediaKeys <= media.properties.Keys
              && (MediaKind(media) != IOMediaClass ==> IOMediaTypeKey in media.properties)
              && SearchProperty([media] + ancestors, IOMediaIconKey).Some?
              && FallbackDecodes(host, media.name) && FallbackDecodes(host, MediaPathBytes(media))
  {
    MandatoryKeysByStage(media.properties.Keys);
    var img1 := MediaNodeEntries(host, media.properties, img);
    if img1.Some? {
      var img2 := MediaUnitEntries(media.properties, img1.value);
      if img2.Some? {
        var img3 := MediaKindEntries(media, ancestors, img2.value);
      }
    }
  }

  /** The build, up to the appearance time, succeeds exactly when the media
      entry and its parents are complete. */
  lemma PlacedSucceeds(host: Host, media: Node, ancestors: seq<Node>, now: real)
    ensures PlacedImage(host, media, ancestors, now).Some? <==>
              MediaComplete(host, media, ancestors) && DeviceComplete(host, ancestors)
  {
    DescribedSucceeds(host, media, ancestors);
    var described := DescribedImage(host, media, ancestors);
    var d := DeviceIndex(ancestors);
    if described.Some? && d.Some? {
      var withDevice := DeviceDescription(host, ancestors[d.value..], described.value);
    }
  }

  /** DADiskCreateFromIOMedia yields a disk exactly when the media entry
      and its parents provide everything it requires: all or nothing. */
  lemma IOMediaSucceeds(host: Host, media: Node, ancestors: seq<Node>, now: real)
    ensures IOMediaImage(host, media, ancestors, now).Some? <==>
              MediaComplete(host, media, ancestors) && DeviceComplete(host, ancestors)
  {
    PlacedSucceeds(host, media, ancestors, now);
  }


  /** A disk made from a media entry means a block-storage device was
      found among its parents (the nearest one), with readable properties
      and a service-plane path, and that the first device-tree parent above
      it, if any, has a device-tree name and path. */
  lemma DevicePresent(host: Host, media: Node, ancestors: seq<Node>, now: real)
    requires IOMediaImage(host, media, ancestors, now).Some?
    ensures DeviceIndex(ancestors).Some?
    ensures var d := DeviceIndex(ancestors).value;
            && IsBlockStorageDevice(ancestors[d])
            && (forall j :: 0 <= j < d ==> !IsBlockStorageDevice(ancestors[j]))
            && ancestors[d].propertiesReadable
            && ancestors[d].servicePath.Some?
            && match FirstIndex(ancestors, d + 1, InDeviceTree)
               case Some(b) => ancestors[b].deviceTreeName.Some? && ancestors[b].deviceTreePath.Some?
               case None => true
  {
    IOMediaSucceeds(host, media, ancestors, now);
  }

  // ---------------------------------------------------------------------
  // What a media disk's description holds.

  /** The stages write disjoint sets of keys. */
  lemma MediaKeyGroupsDisjoint()
    ensures MediaNodeKeys !! MediaUnitKeys + MediaKindKeys + MediaNameKeys
    ensures MediaUnitKeys !! MediaKindKeys + MediaNameKeys
    ensures MediaKindKeys !! MediaNameKeys
  {
  }

  /** The three device sub-stages write distinct keys. */
  lemma DeviceKeysDistinct()
    ensures DeviceInternalKey != DeviceModelKey && DeviceInternalKey != DeviceRevisionKey && DeviceInternalKey != DeviceVendorKey && DeviceInternalKey != DevicePathKey && DeviceInternalKey != DeviceUnitKey && DeviceInternalKey != DeviceGUIDKey
    ensures DeviceProtocolKey != DeviceModelKey && DeviceProtocolKey != DeviceRevisionKey && DeviceProtocolKey != DeviceVendorKey && DeviceProtocolKey != DevicePathKey && DeviceProtocolKey != DeviceUnitKey && DeviceProtocolKey != DeviceGUIDKey
    ensures DeviceModelKey != DevicePathKey && DeviceModelKey != DeviceUnitKey && DeviceModelKey != DeviceGUIDKey
    ensures DeviceRevisionKey != DevicePathKey && DeviceRevisionKey != DeviceUnitKey && DeviceRevisionKey != DeviceGUIDKey
    ensures DeviceVendorKey != DevicePathKey && DeviceVendorKey != DeviceUnitKey && DeviceVendorKey != DeviceGUIDKey
  {
  }

  lemma PlacementKeysDisjoint()
    ensures MediaKeys !! DeviceKeys + BusKeys + {DiskIDKey, VolumeNetworkKey, AppearanceTimeKey}
    ensures DeviceKeys !! BusKeys + {DiskIDKey, VolumeNetworkKey, AppearanceTimeKey}
    ensures BusKeys !! {DiskIDKey, VolumeNetworkKey, AppearanceTimeKey}
  {
    MediaNodePlacementDisjoint();
    MediaUnitPlacementDisjoint();
    MediaKindPlacementDisjoint();
    MediaNamePlacementDisjoint();
  }

  /* Each group of media keys against the keys the placement stages write. */

  lemma MediaNodePlacementDisjoint()
    ensures MediaNodeKeys !! DeviceKeys
    ensures MediaNodeKeys !! BusKeys + {DiskIDKey, VolumeNetworkKey, AppearanceTimeKey}
  {
  }

  lemma MediaUnitPlacementDisjoint()
    ensures MediaUnitKeys !! DeviceKeys
    ensures MediaUnitKeys !! BusKeys + {DiskIDKey, VolumeNetworkKey, AppearanceTimeKey}
  {
  }

  lemma MediaKindPlacementDisjoint()
    ensures MediaKindKeys !! DeviceKeys
    ensures MediaKindKeys !! BusKeys + {DiskIDKey, VolumeNetworkKey, AppearanceTimeKey}
  {
  }

  lemma MediaNamePlacementDisjoint()
    ensures MediaNameKeys !! DeviceKeys
    ensures MediaNameKeys !! BusKeys + {DiskIDKey, VolumeNetworkKey, AppearanceTimeKey}
  {
  }


  /** Right after creation the description holds the identifier with its
      NUL and DAVolumeNetwork = false, and nothing else. */
  lemma IdentifiedEntries(host: Host, media: Node)
    requires IdentifiedImage(host, media).Some?
    ensures var img := IdentifiedImage(host, media).value;
            && Lookup(img.description, DiskIDKey) == Some(Data(img.id + [0]))
            && Lookup(img.description, VolumeNetworkKey) == Some(Bool(false))
            && forall k :: k != DiskIDKey && k != VolumeNetworkKey ==> Lookup(img.description, k).None?
  {
    var name := BSDName(host, media).value;
    DefaultsAnswer(DevPrefix + name);
  }

  /** The media stages copy every mandatory media property under its
      description key, record the kind, the icon found upwards and (for DVD
      or CD media) the type, and the decoded name and path; they write no
      other key. */
  lemma MediaStagesEntries(host: Host, media: Node, ancestors: seq<Node>, img: DiskImage)
    requires MediaDescription(host, media, ancestors, img).Some?
    ensures FallbackDecodes(host, media.name) && FallbackDecodes(host, MediaPathBytes(media))
    ensures var d := MediaDescription(host, media, ancestors, img).value.description;
            var props := media.properties;
            && Lookup(d, MediaBlockSizeKey) == Lookup(props, IOMediaPreferredBlockSizeKey)
            && Lookup(d, MediaBSDNameKey) == Lookup(props, IOBSDNameKey)
            && Lookup(d, MediaBSDMajorKey) == Lookup(props, IOBSDMajorKey)
            && Lookup(d, MediaBSDMinorKey) == Lookup(props, IOBSDMinorKey)
            && Lookup(d, MediaBSDUnitKey) == Lookup(props, IOBSDUnitKey)
            && Lookup(d, MediaContentKey) == Lookup(props, IOMediaContentKey)
            && Lookup(d, MediaEjectableKey) == Lookup(props, IOMediaEjectableKey)
            && Lookup(d, MediaIconKey) == SearchProperty([media] + ancestors, IOMediaIconKey)
            && Lookup(d, MediaKindKey) == Some(Str(MediaKind(media)))
            && Lookup(d, MediaTypeKey) == (if MediaKind(media) != IOMediaClass then Lookup(props, IOMediaTypeKey)
                                           else Lookup(img.description, MediaTypeKey))
            && Lookup(d, MediaLeafKey) == Lookup(props, IOMediaLeafKey)
            && Lookup(d, MediaNameKey) == Some(Str(DecodeWithFallback(host, media.name.value).value))
            && Lookup(d, MediaPathKey) == Some(Str(DecodeWithFallback(host, MediaPathBytes(media).value).value))
            && Lookup(d, MediaRemovableKey) == Lookup(props, IOMediaRemovableKey)
            && Lookup(d, MediaSizeKey) == Lookup(props, IOMediaSizeKey)
            && Lookup(d, MediaWholeKey) == Lookup(props, IOMediaWholeKey)
            && Lookup(d, MediaWritableKey) == Lookup(props, IOMediaWritableKey)
    ensures var d := MediaDescription(host, media, ancestors, img).value.description;
            forall k :: k !in MediaKeys ==> Lookup(d, k) == Lookup(img.description, k)
  {
    var img1 := MediaNodeEntries(host, media.properties, img).value;
    var img2 := MediaUnitEntries(media.properties, img1).value;
    var img3 := MediaKindEntries(media, ancestors, img2).value;
    var img4 := MediaNameEntries(host, media, img3).value;
    MediaKeyGroupsDisjoint();
    assert img4 == MediaDescription(host, media, ancestors, img).value;
  }

  /** Once the media entries are in, the description holds nothing but
      the identifier, DAVolumeNetwork and media keys. */
  lemma DescribedKeysOnly(host: Host, media: Node, ancestors: seq<Node>)
    requires DescribedImage(host, media, ancestors).Some?
    ensures var d := DescribedImage(host, media, ancestors).value.description;
            forall k :: k !in MediaKeys && k != DiskIDKey && k != VolumeNetworkKey ==> Lookup(d, k).None?
  {
    var created := IdentifiedImage(host, media).value;
    IdentifiedEntries(host, media);
    MediaStagesEntries(host, media, ancestors, created);
    PlacementKeysDisjoint();
  }

  /** The protocol and characteristics entries of a description that held
      none of the device keys. */
  lemma CharacteristicsStageEntries(device: Node, img: DiskImage)
    requires && Lookup(img.description, DeviceInternalKey).None? && Lookup(img.description, DeviceProtocolKey).None?
             && Lookup(img.description, DeviceModelKey).None? && Lookup(img.description, DeviceRevisionKey).None?
             && Lookup(img.description, DeviceVendorKey).None?
    ensures var d := DeviceCharacteristics(device, img).description;
            var protocol := Lookup(device.properties, ProtocolCharacteristicsKey);
            var characteristics := Lookup(device.properties, DeviceCharacteristicsKey);
            var location := SubProperty(protocol, PhysicalInterconnectLocationKey);
            && Lookup(d, DeviceModelKey) == SubProperty(characteristics, ProductNameKey)
            && Lookup(d, DeviceRevisionKey) == SubProperty(characteristics, ProductRevisionLevelKey)
            && Lookup(d, DeviceVendorKey) == SubProperty(characteristics, VendorNameKey)
            && Lookup(d, DeviceProtocolKey) == SubProperty(protocol, PhysicalInterconnectTypeKey)
            && Lookup(d, DeviceInternalKey) == (if location == Some(Str(InternalLocation)) then Some(Bool(true))
                                                else if location == Some(Str(ExternalLocation)) then Some(Bool(false))
                                                else None)
    ensures var d := DeviceCharacteristics(device, img).description;
            forall k :: k !in {DeviceInternalKey, DeviceProtocolKey, DeviceModelKey, DeviceRevisionKey, DeviceVendorKey} ==>
              Lookup(d, k) == Lookup(img.description, k)
  {
    DeviceKeysDistinct();
    var d1 := ProtocolEntries(Lookup(device.properties, ProtocolCharacteristicsKey), img.description);
    assert Lookup(d1, DeviceModelKey).None? && Lookup(d1, DeviceRevisionKey).None? && Lookup(d1, DeviceVendorKey).None?;
  }

  /** The path, unit and GUID entries of a description that held none of
      them. */
  lemma LocationStageEntries(host: Host, chain: seq<Node>, img: DiskImage)
    requires |chain| > 0 && Utf8Decodes(host, chain[0].servicePath)
    requires Lookup(img.description, DeviceUnitKey).None? && Lookup(img.description, DeviceGUIDKey).None?
    ensures var d := DeviceLocation(host, chain, img).value.description;
            var guid := SearchProperty(chain, GUIDProperty);
            && Lookup(d, DevicePathKey) == Some(Str(host.decodeUTF8(CStr(chain[0].servicePath.value)).value))
            && Lookup(d, DeviceUnitKey) == SearchProperty(chain, UnitProperty)
            && Lookup(d, DeviceGUIDKey) == (if guid.Some? && guid.value.Number?
                                            then Some(Data(BigEndianBytes(ToUInt64(guid.value.n), 8))) else None)
    ensures var d := DeviceLocation(host, chain, img).value.description;
            forall k :: k !in {DevicePathKey, DeviceUnitKey, DeviceGUIDKey} ==> Lookup(d, k) == Lookup(img.description, k)
  {
  }

  /** On a description without device entries, the device stage records
      the device path, the unit and GUID found upwards from the device,
      the model, revision and vendor from its device characteristics, and
      the protocol and internal flag from its protocol characteristics;
      it writes no other key. */
  lemma DeviceStageEntries(host: Host, chain: seq<Node>, img: DiskImage)
    requires |chain| > 0 && DeviceDescription(host, chain, img).Some?
    requires && Lookup(img.description, DeviceInternalKey).None? && Lookup(img.description, DeviceProtocolKey).None?
             && Lookup(img.description, DeviceModelKey).None? && Lookup(img.description, DeviceRevisionKey).None?
             && Lookup(img.description, DeviceVendorKey).None? && Lookup(img.description, DevicePathKey).None?
             && Lookup(img.description, DeviceUnitKey).None? && Lookup(img.description, DeviceGUIDKey).None?
    ensures Utf8Decodes(host, chain[0].servicePath)
    ensures var d := DeviceDescription(host, chain, img).value.description;
            var protocol := Lookup(chain[0].properties, ProtocolCharacteristicsKey);
            var characteristics := Lookup(chain[0].properties, DeviceCharacteristicsKey);
            var location := SubProperty(protocol, PhysicalInterconnectLocationKey);
            var guid := SearchProperty(chain, GUIDProperty);
            && Lookup(d, DevicePathKey) == Some(Str(host.decodeUTF8(CStr(chain[0].servicePath.value)).value))
            && Lookup(d, DeviceUnitKey) == SearchProperty(chain, UnitProperty)
            && Lookup(d, DeviceGUIDKey) == (if guid.Some? && guid.value.Number?
                                            then Some(Data(BigEndianBytes(ToUInt64(guid.value.n), 8))) else None)
            && Lookup(d, DeviceModelKey) == SubProperty(characteristics, ProductNameKey)
            && Lookup(d, DeviceRevisionKey) == SubProperty(characteristics, ProductRevisionLevelKey)
            && Lookup(d, DeviceVendorKey) == SubProperty(characteristics, VendorNameKey)
            && Lookup(d, DeviceProtocolKey) == SubProperty(protocol, PhysicalInterconnectTypeKey)
            && Lookup(d, DeviceInternalKey) == (if location == Some(Str(InternalLocation)) then Some(Bool(true))
                                                else if location == Some(Str(ExternalLocation)) then Some(Bool(false))
                                                else None)
  {
    DeviceKeysDistinct();
    CharacteristicsStageEntries(chain[0], img);
    var img2 := DeviceCharacteristics(chain[0], img);
    assert DeviceUnitKey !in {DeviceInternalKey, DeviceProtocolKey, DeviceModelKey, DeviceRevisionKey, DeviceVendorKey};
    assert DeviceGUIDKey !in {DeviceInternalKey, DeviceProtocolKey, DeviceModelKey, DeviceRevisionKey, DeviceVendorKey};
    LocationStageEntries(host, chain, img2);
  }

  /** The device stage writes no key outside the device keys. */
  lemma DeviceStageKeys(host: Host, chain: seq<Node>, img: DiskImage)
    requires |chain| > 0 && DeviceDescription(host, chain, img).Some?
    ensures var d := DeviceDescription(host, chain, img).value.description;
            forall k :: k !in DeviceKeys ==> Lookup(d, k) == Lookup(img.description, k)
  {
    var img2 := DeviceCharacteristics(chain[0], img);
    forall k | k !in DeviceKeys
      ensures Lookup(DeviceDescription(host, chain, img).value.description, k) == Lookup(img.description, k)
    {
      assert k != DevicePathKey && k != DeviceUnitKey && k != DeviceGUIDKey;
      assert Lookup(img2.description, k) == Lookup(img.description, k);
    }
  }

  /** The device, bus and appearance-time stages write only their own keys:
      every other entry is as the media stages left it. */
  lemma PlacementKeepsEntries(host: Host, media: Node, ancestors: seq<Node>, now: real)
    requires PlacedImage(host, media, ancestors, now).Some?
    ensures DescribedImage(host, media, ancestors).Some? && DeviceComplete(host, ancestors)
    ensures var described := DescribedImage(host, media, ancestors).value.description;
            var placed := PlacedImage(host, media, ancestors, now).value.description;
            forall k :: k !in DeviceKeys && k !in BusKeys && k != AppearanceTimeKey ==>
              Lookup(placed, k) == Lookup(described, k)
  {
    PlacedStages(host, media, ancestors, now);
    PlacedSucceeds(host, media, ancestors, now);
    var described := DescribedImage(host, media, ancestors).value;
    var d := DeviceIndex(ancestors).value;
    var withDevice := DeviceDescription(host, ancestors[d..], described).value;
    BusTimeFrame(host, ancestors, d, withDevice, now);
    DeviceStageKeys(host, ancestors[d..], described);
    forall k | k !in DeviceKeys && k !in BusKeys && k != AppearanceTimeKey
      ensures Lookup(PlacedImage(host, media, ancestors, now).value.description, k) == Lookup(described.description, k)
    {
      assert k != BusNameKey && k != BusPathKey;
    }
  }

  /** The bus and appearance-time stages change only their own keys. */
  lemma BusTimeFrame(host: Host, ancestors: seq<Node>, device: nat, img: DiskImage, now: real)
    requires device < |ancestors| && BusDescription(host, ancestors, device, img).Some?
    ensures var d := BusDescription(host, ancestors, device, img).value.description[AppearanceTimeKey := Double(now)];
            forall k :: k != BusNameKey && k != BusPathKey && k != AppearanceTimeKey ==> Lookup(d, k) == Lookup(img.description, k)
  {
  }

  /** A media disk's description holds every mandatory media property under
      its description key, the kind, the icon found upwards, the type for
      DVD or CD media (and none otherwise), the decoded name and path, the
      identifier with its NUL and DAVolumeNetwork = false. */
  lemma IOMediaMediaEntries(host: Host, media: Node, ancestors: seq<Node>, now: real)
    requires IOMediaImage(host, media, ancestors, now).Some?
    ensures FallbackDecodes(host, media.name) && FallbackDecodes(host, MediaPathBytes(media))
    ensures var disk := IOMediaImage(host, media, ancestors, now).value;
            var d := disk.description;
            var props := media.properties;
            && Lookup(d, DiskIDKey) == Some(Data(disk.id + [0]))
            && Lookup(d, VolumeNetworkKey) == Some(Bool(false))
            && Lookup(d, MediaBlockSizeKey) == Lookup(props, IOMediaPreferredBlockSizeKey)
            && Lookup(d, MediaBSDNameKey) == Lookup(props, IOBSDNameKey)
            && Lookup(d, MediaBSDMajorKey) == Lookup(props, IOBSDMajorKey)
            && Lookup(d, MediaBSDMinorKey) == Lookup(props, IOBSDMinorKey)
            && Lookup(d, MediaBSDUnitKey) == Lookup(props, IOBSDUnitKey)
            && Lookup(d, MediaContentKey) == Lookup(props, IOMediaContentKey)
            && Lookup(d, MediaEjectableKey) == Lookup(props, IOMediaEjectableKey)
            && Lookup(d, MediaIconKey) == SearchProperty([media] + ancestors, IOMediaIconKey)
            && Lookup(d, MediaKindKey) == Some(Str(MediaKind(media)))
            && Lookup(d, MediaTypeKey) == (if MediaKind(media) != IOMediaClass then Lookup(props, IOMediaTypeKey) else None)
            && Lookup(d, MediaLeafKey) == Lookup(props, IOMediaLeafKey)
            && Lookup(d, MediaNameKey) == Some(Str(DecodeWithFallback(host, media.name.value).value))
            && Lookup(d, MediaPathKey) == Some(Str(DecodeWithFallback(host, MediaPathBytes(media).value).value))
            && Lookup(d, MediaRemovableKey) == Lookup(props, IOMediaRemovableKey)
            && Lookup(d, MediaSizeKey) == Lookup(props, IOMediaSizeKey)
            && Lookup(d, MediaWholeKey) == Lookup(props, IOMediaWholeKey)
            && Lookup(d, MediaWritableKey) == Lookup(props, IOMediaWritableKey)
  {
    var created := IdentifiedImage(host, media).value;
    var placed := PlacedImage(host, media, ancestors, now).value;
    var d := DeviceIndex(ancestors).value;
    IdentifiedEntries(host, media);
    MediaStagesEntries(host, media, ancestors, created);
    PlacementKeepsEntries(host, media, ancestors, now);
    PlacementKeysDisjoint();
    IOMediaIdentity(host, media, ancestors, now);
    IdentifiedNames(host, media);
    OwnershipKeepsIdentity(host, [media] + ancestors, ancestors[d..], placed);
  }

  /** The device keys differ from the bus keys and the appearance time. */
  lemma PlacementKeysDistinct()
    ensures DeviceInternalKey != BusNameKey && DeviceInternalKey != BusPathKey && DeviceInternalKey != AppearanceTimeKey
    ensures DeviceProtocolKey != BusNameKey && DeviceProtocolKey != BusPathKey && DeviceProtocolKey != AppearanceTimeKey
    ensures DeviceModelKey != BusNameKey && DeviceModelKey != BusPathKey && DeviceModelKey != AppearanceTimeKey
    ensures DeviceRevisionKey != BusNameKey && DeviceRevisionKey != BusPathKey && DeviceRevisionKey != AppearanceTimeKey
    ensures DeviceVendorKey != BusNameKey && DeviceVendorKey != BusPathKey && DeviceVendorKey != AppearanceTimeKey
    ensures DevicePathKey != BusNameKey && DevicePathKey != BusPathKey && DevicePathKey != AppearanceTimeKey
    ensures DeviceUnitKey != BusNameKey && DeviceUnitKey != BusPathKey && DeviceUnitKey != AppearanceTimeKey
    ensures DeviceGUIDKey != BusNameKey && DeviceGUIDKey != BusPathKey && DeviceGUIDKey != AppearanceTimeKey
    ensures BusNameKey != AppearanceTimeKey && BusPathKey != AppearanceTimeKey
  {
  }

  /** How a placed disk's description is built from the described one, and
      that ownership leaves it as it is. */
  lemma PlacedStages(host: Host, media: Node, ancestors: seq<Node>, now: real)
    requires PlacedImage(host, media, ancestors, now).Some?
    ensures DescribedImage(host, media, ancestors).Some?
    ensures DeviceIndex(ancestors).Some? && DeviceIndex(ancestors).value < |ancestors|
    ensures DeviceChain(ancestors) == ancestors[DeviceIndex(ancestors).value..]
    ensures var described := DescribedImage(host, media, ancestors).value;
            var d := DeviceIndex(ancestors).value;
            && DeviceDescription(host, ancestors[d..], described).Some?
            && BusDescription(host, ancestors, d, DeviceDescription(host, ancestors[d..], described).value).Some?
            && PlacedImage(host, media, ancestors, now).value.description ==
                 BusDescription(host, ancestors, d, DeviceDescription(host, ancestors[d..], described).value).value
                   .description[AppearanceTimeKey := Double(now)]
    ensures IOMediaImage(host, media, ancestors, now).Some?
    ensures IOMediaImage(host, media, ancestors, now).value.description == PlacedImage(host, media, ancestors, now).value.description
  {
    PlacedSucceeds(host, media, ancestors, now);
    var d := DeviceIndex(ancestors).value;
    OwnershipKeepsIdentity(host, [media] + ancestors, ancestors[d..], PlacedImage(host, media, ancestors, now).value);
  }

  /** The described disk holds none of the keys the placement stages write. */
  lemma DescribedPlacementKeysAbsent(host: Host, media: Node, ancestors: seq<Node>)
    requires DescribedImage(host, media, ancestors).Some?
    ensures var d := DescribedImage(host, media, ancestors).value.description;
            && Lookup(d, DeviceInternalKey).None? && Lookup(d, DeviceProtocolKey).None?
            && Lookup(d, DeviceModelKey).None? && Lookup(d, DeviceRevisionKey).None?
            && Lookup(d, DeviceVendorKey).None? && Lookup(d, DevicePathKey).None?
            && Lookup(d, DeviceUnitKey).None? && Lookup(d, DeviceGUIDKey).None?
            && Lookup(d, BusNameKey).None? && Lookup(d, BusPathKey).None?
  {
    DescribedKeysOnly(host, media, ancestors);
    PlacementKeysDisjoint();
  }

  /** A media disk's description holds the device path, the unit and GUID
      found upwards from the device, and the model, revision, vendor,
      protocol and internal flag its characteristics give. */
  lemma IOMediaDeviceEntries(host: Host, media: Node, ancestors: seq<Node>, now: real)
    requires IOMediaImage(host, media, ancestors, now).Some?
    ensures DeviceComplete(host, ancestors)
    ensures var d := IOMediaImage(host, media, ancestors, now).value.description;
            var chain := DeviceChain(ancestors);
            var device := chain[0];
            var protocol := Lookup(device.properties, ProtocolCharacteristicsKey);
            var characteristics := Lookup(device.properties, DeviceCharacteristicsKey);
            var location := SubProperty(protocol, PhysicalInterconnectLocationKey);
            var guid := SearchProperty(chain, GUIDProperty);
            && Lookup(d, DevicePathKey) == Some(Str(host.decodeUTF8(CStr(device.servicePath.value)).value))
            && Lookup(d, DeviceUnitKey) == SearchProperty(chain, UnitProperty)
            && Lookup(d, DeviceGUIDKey) == (if guid.Some? && guid.value.Number?
                                            then Some(Data(BigEndianBytes(ToUInt64(guid.value.n), 8))) else None)
            && Lookup(d, DeviceModelKey) == SubProperty(characteristics, ProductNameKey)
            && Lookup(d, DeviceRevisionKey) == SubProperty(characteristics, ProductRevisionLevelKey)
            && Lookup(d, DeviceVendorKey) == SubProperty(characteristics, VendorNameKey)
            && Lookup(d, DeviceProtocolKey) == SubProperty(protocol, PhysicalInterconnectTypeKey)
            && Lookup(d, DeviceInternalKey) == (if location == Some(Str(InternalLocation)) then Some(Bool(true))
                                                else if location == Some(Str(ExternalLocation)) then Some(Bool(false))
                                                else None)
  {
    IOMediaSucceeds(host, media, ancestors, now);
    PlacedStages(host, media, ancestors, now);
    var described := DescribedImage(host, media, ancestors).value;
    var d := DeviceIndex(ancestors).value;
    var withDevice := DeviceDescription(host, ancestors[d..], described).value;
    var final := IOMediaImage(host, media, ancestors, now).value.description;
    DescribedPlacementKeysAbsent(host, media, ancestors);
    DeviceStageEntries(host, ancestors[d..], described);
    PlacementKeysDistinct();
    BusTimeFrame(host, ancestors, d, withDevice, now);
    assert Lookup(final, DeviceInternalKey) == Lookup(withDevice.description, DeviceInternalKey);
    assert Lookup(final, DeviceProtocolKey) == Lookup(withDevice.description, DeviceProtocolKey);
    assert Lookup(final, DeviceModelKey) == Lookup(withDevice.description, DeviceModelKey);
    assert Lookup(final, DeviceRevisionKey) == Lookup(withDevice.description, DeviceRevisionKey);
    assert Lookup(final, DeviceVendorKey) == Lookup(withDevice.description, DeviceVendorKey);
    assert Lookup(final, DevicePathKey) == Lookup(withDevice.description, DevicePathKey);
    assert Lookup(final, DeviceUnitKey) == Lookup(withDevice.description, DeviceUnitKey);
    assert Lookup(final, DeviceGUIDKey) == Lookup(withDevice.description, DeviceGUIDKey);
  }

  /** A media disk's description holds the bus name and path when a
      device-tree entry lies above the device (and none otherwise), and the
      appearance time. */
  lemma IOMediaBusEntries(host: Host, media: Node, ancestors: seq<Node>, now: real)
    requires IOMediaImage(host, media, ancestors, now).Some?
    ensures DeviceComplete(host, ancestors)
    ensures var d := IOMediaImage(host, media, ancestors, now).value.description;
            && Lookup(d, AppearanceTimeKey) == Some(Double(now))
            && match FirstIndex(ancestors, DeviceIndex(ancestors).value + 1, InDeviceTree)
               case Some(b) =>
                 && Lookup(d, BusNameKey) == Some(Str(host.decodeUTF8(CStr(ancestors[b].deviceTreeName.value)).value))
                 && Lookup(d, BusPathKey) == Some(Str(host.decodeUTF8(CStr(ancestors[b].deviceTreePath.value)).value))
               case None => Lookup(d, BusNameKey).None? && Lookup(d, BusPathKey).None?
  {
    IOMediaSucceeds(host, media, ancestors, now);
    PlacedStages(host, media, ancestors, now);
    var described := DescribedImage(host, media, ancestors).value;
    var d := DeviceIndex(ancestors).value;
    var withDevice := DeviceDescription(host, ancestors[d..], described).value;
    DescribedPlacementKeysAbsent(host, media, ancestors);
    DeviceStageKeys(host, ancestors[d..], described);
    PlacementKeysDistinct();
    PlacementKeysDisjoint();
    assert BusNameKey !in DeviceKeys && BusPathKey !in DeviceKeys;
    assert Lookup(withDevice.description, BusNameKey).None? && Lookup(withDevice.description, BusPathKey).None?;
  }

  /** A media disk's description holds no key beyond the media, device and
      bus entries, its identifier, DAVolumeNetwork and the appearance time. */
  lemma IOMediaKeysOnly(host: Host, media: Node, ancestors: seq<Node>, now: real)
    requires IOMediaImage(host, media, ancestors, now).Some?
    ensures var d := IOMediaImage(host, media, ancestors, now).value.description;
            forall k :: (k !in MediaKeys && k !in DeviceKeys && k !in BusKeys
                         && k != DiskIDKey && k != VolumeNetworkKey && k != AppearanceTimeKey) ==> Lookup(d, k).None?
  {
    PlacedStages(host, media, ancestors, now);
    PlacementKeepsEntries(host, media, ancestors, now);
    DescribedKeysOnly(host, media, ancestors);
  }

  /** A volume disk exists exactly when the path is given, has a
      file-system representation and something is mounted on it. */
  lemma VolumePathExists(host: Host, path: Option<Url>, mounts: seq<StatFs>, euid: uint32)
    ensures var fsPath := URLCopyFileSystemRepresentation(host, path);
            VolumePathImage(host, path, mounts, euid).Some? <==>
              fsPath.Some? && exists i :: 0 <= i < |mounts| && MountedOn(mounts[i], fsPath.value)
  {
    var fsPath := URLCopyFileSystemRepresentation(host, path);
    if fsPath.Some? {
      StatfsEntryChoice(mounts, fsPath.value, euid);
    }
  }

  /** A volume disk is the disk made for the mount table entry statfs picks,
      an entry mounted on the path. */
  lemma VolumePathDisk(host: Host, path: Option<Url>, mounts: seq<StatFs>, euid: uint32)
    requires VolumePathImage(host, path, mounts, euid).Some?
    ensures path.Some? && URLCopyFileSystemRepresentation(host, path).Some?
    ensures var fsPath := URLCopyFileSystemRepresentation(host, path).value;
            && StatfsEntry(mounts, fsPath, euid).Some?
            && var fs := StatfsEntry(mounts, fsPath, euid).value;
               && fs in mounts && MountedOn(fs, fsPath)
               && VolumePathImage(host, path, mounts, euid).value == VolumeDisk(host, path.value, fs)
  {
    var fsPath := URLCopyFileSystemRepresentation(host, path).value;
    match FirstOwnedMount(mounts, fsPath, euid, 0)
    case Some(i) =>
    case None =>
      var j := LastMount(mounts, fsPath, |mounts|).value;
      assert StatfsEntry(mounts, fsPath, euid) == Some(mounts[j]);
  }

  /** A volume disk is named after its mount point, carries the path, and
      holds exactly the disk identifier and the three volume entries; it is
      networked exactly when the mount is not local. */
  lemma VolumeDiskEntries(host: Host, url: Url, fs: StatFs)
    ensures var disk := VolumeDisk(host, url, fs);
            && disk.id == CStr(fs.mntOnName)
            && disk.bypath == Some(url)
            && disk.description.Keys == {DiskIDKey, VolumePathKey, VolumeMountableKey, VolumeNetworkKey}
            && disk.description[DiskIDKey] == Data(disk.id + [0])
            && disk.description[VolumePathKey] == UrlValue(url)
            && disk.description[VolumeMountableKey] == Bool(true)
            && disk.description[VolumeNetworkKey] == Bool(fs.flags & MNT_LOCAL == 0)
  {
    var img := VolumeEntries(url, fs, Defaults(CStr(fs.mntOnName)));
    assert img.description.Keys == {DiskIDKey, VolumePathKey, VolumeMountableKey, VolumeNetworkKey};
    assert VolumeDisk(host, url, fs).description == img.description;
  }

  /** A volume disk has every stage marked done, no option set and mode
      0755, and is owned by the mount's owner when that user exists,
      otherwise by root in group admin. */
  lemma VolumeDiskSettings(host: Host, url: Url, fs: StatFs)
    ensures var disk := VolumeDisk(host, url, fs);
            && disk.state == StateStagedAll
            && HasBits(disk.state, StateStagedProbe) && HasBits(disk.state, StateStagedMount)
            && disk.options == 0
            && disk.mode == DefaultMode
            && match host.accounts.UserByID(fs.owner)
               case Some(user) =>
                 disk.userEUID == user.uid && disk.userEGID == user.gid && disk.userRUID == user.uid && disk.userRGID == user.gid
               case None =>
                 disk.userEUID == UID_ROOT && disk.userEGID == GID_ADMIN && disk.userRUID == UID_ROOT && disk.userRGID == GID_ADMIN
  {
  }

  // ---------------------------------------------------------------------
  // The builder as the source runs it, proved against the functions above.

  /** Lines 249-283: a fresh disk for the media's BSD name. */
  method CreateIdentified(host: Host, media: Node) returns (disk: Disk?)
    ensures var r := IdentifiedImage(host, media);
            (disk == null <==> r.None?) && (disk != null ==> fresh(disk) && disk.Image() == r.value)
  {
    if !media.propertiesReadable { return null; }
    var bsdName := Lookup(media.properties, IOBSDNameKey);
    if bsdName.None? { return null; }
    var name := GetCString(host, bsdName.value, IONameSize);
    if name.None? { return null; }
    var path := DevPrefix + name.value;
    CStrOfCString(path);
    disk := new Disk(path);
    var url := host.decodeUTF8(path);
    if url.None? { return null; }
    AttachMedia(disk, media, name.value, url.value);
  }

  /** Lines 268-283 on the new disk. */
  method AttachMedia(disk: Disk, media: Node, name: CString, url: string)
    modifies disk
    ensures disk.Image() == Attached(old(disk.Image()), media, name, url)
  {
    disk.device := Some(Url(url, false));
    disk.cookedPath := Some(DevPrefix + name);
    disk.rawPath := Some(DevPrefix + RawInfix + name);
    disk.media := Some(media);
    disk.description := disk.description[VolumeNetworkKey := Bool(false)];
  }

  /** Lines 289-321 on the disk being built. */
  method AddMediaNode(host: Host, properties: Dictionary, disk: Disk) returns (ok: bool)
    modifies disk
    ensures var r := MediaNodeEntries(host, properties, old(disk.Image()));
            (ok <==> r.Some?) && (ok ==> disk.Image() == r.value)
  {
    var blockSize := Lookup(properties, IOMediaPreferredBlockSizeKey);
    if blockSize.None? { return false; }
    disk.description := disk.description[MediaBlockSizeKey := blockSize.value];
    var bsdName := Lookup(properties, IOBSDNameKey);
    if bsdName.None? { return false; }
    disk.description := disk.description[MediaBSDNameKey := bsdName.value];
    var major := Lookup(properties, IOBSDMajorKey);
    if major.None? { return false; }
    disk.description := disk.description[MediaBSDMajorKey := major.value];
    var minor := Lookup(properties, IOBSDMinorKey);
    if minor.None? { return false; }
    disk.description := disk.description[MediaBSDMinorKey := minor.value];
    disk.deviceNode := host.makeDevice(major.value, minor.value);
    return true;
  }

  /** Lines 327-350 on the disk being built. */
  method AddMediaUnit(properties: Dictionary, disk: Disk) returns (ok: bool)
    modifies disk
    ensures var r := MediaUnitEntries(properties, old(disk.Image()));
            (ok <==> r.Some?) && (ok ==> disk.Image() == r.value)
  {
    var unit := Lookup(properties, IOBSDUnitKey);
    if unit.None? { return false; }
    disk.description := disk.description[MediaBSDUnitKey := unit.value];
    disk.deviceUnit := NumberAsSInt32(unit.value, disk.deviceUnit);
    var content := Lookup(properties, IOMediaContentKey);
    if content.None? { return false; }
    disk.description := disk.description[MediaContentKey := content.value];
    var ejectable := Lookup(properties, IOMediaEjectableKey);
    if ejectable.None? { return false; }
    disk.description := disk.description[MediaEjectableKey := ejectable.value];
    return true;
  }

  /** Lines 356-414 on the disk being built. */
  method AddMediaKind(media: Node, ancestors: seq<Node>, disk: Disk) returns (ok: bool)
    modifies disk
    ensures var r := MediaKindEntries(media, ancestors, old(disk.Image()));
            (ok <==> r.Some?) && (ok ==> disk.Image() == r.value)
  {
    var properties := media.properties;
    var icon := SearchProperty([media] + ancestors, IOMediaIconKey);
    if icon.None? { return false; }
    disk.description := disk.description[MediaIconKey := icon.value];
    if IODVDMediaClass in media.classes {
      disk.description := disk.description[MediaKindKey := Str(IODVDMediaClass)];
      var mediaType := Lookup(properties, IOMediaTypeKey);
      if mediaType.None? { return false; }
      disk.description := disk.description[MediaTypeKey := mediaType.value];
    } else if IOCDMediaClass in media.classes {
      disk.description := disk.description[MediaKindKey := Str(IOCDMediaClass)];
      var mediaType := Lookup(properties, IOMediaTypeKey);
      if mediaType.None? { return false; }
      disk.description := disk.description[MediaTypeKey := mediaType.value];
    } else {
      disk.description := disk.description[MediaKindKey := Str(IOMediaClass)];
    }
    var leaf := Lookup(properties, IOMediaLeafKey);
    if leaf.None? { return false; }
    disk.description := disk.description[MediaLeafKey := leaf.value];
    return true;
  }

  /** Lines 420-479 on the disk being built. */
  method AddMediaNames(host: Host, media: Node, disk: Disk) returns (ok: bool)
    modifies disk
    ensures var r := MediaNameEntries(host, media, old(disk.Image()));
            (ok <==> r.Some?) && (ok ==> disk.Image() == r.value)
  {
    var properties := media.properties;
    if media.name.None? { return false; }
    var name := DecodeWithFallback(host, media.name.value);
    if name.None? { return false; }
    disk.description := disk.description[MediaNameKey := Str(name.value)];
    var pathBytes := media.deviceTreePath;
    if pathBytes.None? { pathBytes := media.servicePath; }
    if pathBytes.None? { return false; }
    var path := DecodeWithFallback(host, pathBytes.value);
    if path.None? { return false; }
    disk.description := disk.description[MediaPathKey := Str(path.value)];
    var removable := Lookup(properties, IOMediaRemovableKey);
    if removable.None? { return false; }
    disk.description := disk.description[MediaRemovableKey := removable.value];
    var size := Lookup(properties, IOMediaSizeKey);
    if size.None? { return false; }
    disk.description := disk.description[MediaSizeKey := size.value];
    var whole := Lookup(properties, IOMediaWholeKey);
    if whole.None? { return false; }
    disk.description := disk.description[MediaWholeKey := whole.value];
    var writable := Lookup(properties, IOMediaWritableKey);
    if writable.None? { return false; }
    disk.description := disk.description[MediaWritableKey := writable.value];
    return true;
  }

  /** Lines 249-479: a fresh disk holding the media entries. */
  method CreateDescribed(host: Host, media: Node, ancestors: seq<Node>) returns (disk: Disk?)
    ensures var r := DescribedImage(host, media, ancestors);
            (disk == null <==> r.None?) && (disk != null ==> fresh(disk) && disk.Image() == r.value)
  {
    disk := CreateIdentified(host, media);
    if disk == null { return null; }
    var properties := media.properties;
    var ok := AddMediaNode(host, properties, disk);
    if !ok { return null; }
    ok := AddMediaUnit(properties, disk);
    if !ok { return null; }
    ok := AddMediaKind(media, ancestors, disk);
    if !ok { return null; }
    ok := AddMediaNames(host, media, disk);
    if !ok { return null; }
  }

  /** Lines 515-551 on the disk being built. */
  method AddProtocolEntries(device: Node, disk: Disk)
    modifies disk
    ensures disk.Image() == old(disk.Image()).(description := ProtocolEntries(
              Lookup(device.properties, ProtocolCharacteristicsKey), old(disk.description)))
  {
    var sub := Lookup(device.properties, ProtocolCharacteristicsKey);
    if sub.Some? && sub.value.Dict? {
      var location := Lookup(sub.value.entries, PhysicalInterconnectLocationKey);
      if location.Some? && location.value.Str? {
        if location.value.s == InternalLocation {
          disk.description := disk.description[DeviceInternalKey := Bool(true)];
        } else if location.value.s == ExternalLocation {
          disk.description := disk.description[DeviceInternalKey := Bool(false)];
        }
      }
      var protocol := Lookup(sub.value.entries, PhysicalInterconnectTypeKey);
      if protocol.Some? {
        disk.description := disk.description[DeviceProtocolKey := protocol.value];
      }
    }
  }

  /** Lines 557-593 on the disk being built. */
  method AddCharacteristicsEntries(device: Node, disk: Disk)
    modifies disk
    ensures disk.Image() == old(disk.Image()).(description := CharacteristicsEntries(
              Lookup(device.properties, DeviceCharacteristicsKey), old(disk.description)))
  {
    var sub := Lookup(device.properties, DeviceCharacteristicsKey);
    if sub.Some? && sub.value.Dict? {
      var model := Lookup(sub.value.entries, ProductNameKey);
      if model.Some? {
        disk.description := disk.description[DeviceModelKey := model.value];
      }
      var revision := Lookup(sub.value.entries, ProductRevisionLevelKey);
      if revision.Some? {
        disk.description := disk.description[DeviceRevisionKey := revision.value];
      }
      var vendor := Lookup(sub.value.entries, VendorNameKey);
      if vendor.Some? {
        disk.description := disk.description[DeviceVendorKey := vendor.value];
      }
    }
  }

  /** Lines 599-648 on the disk being built; `chain` starts at the device. */
  method AddDeviceLocation(host: Host, chain: seq<Node>, disk: Disk) returns (ok: bool)
    requires |chain| > 0
    modifies disk
    ensures var r := DeviceLocation(host, chain, old(disk.Image()));
            (ok <==> r.Some?) && (ok ==> disk.Image() == r.value)
  {
    var device := chain[0];
    if device.servicePath.None? { return false; }
    var path := host.decodeUTF8(CStr(device.servicePath.value));
    if path.None? { return false; }
    disk.description := disk.description[DevicePathKey := Str(path.value)];
    var unit := SearchProperty(chain, UnitProperty);
    if unit.Some? {
      disk.description := disk.description[DeviceUnitKey := unit.value];
    }
    var guid := SearchProperty(chain, GUIDProperty);
    if guid.Some? && guid.value.Number? {
      var value := ToUInt64(guid.value.n);
      disk.description := disk.description[DeviceGUIDKey := Data(BigEndianBytes(value, 8))];
    }
    return true;
  }

  /** Lines 657-701 on the disk being built: the walk up from the device to
      the first entry in the device-tree plane, then its name and path. */
  method AddBusDescription(host: Host, ancestors: seq<Node>, device: nat, disk: Disk) returns (ok: bool)
    requires device < |ancestors|
    modifies disk
    ensures var r := BusDescription(host, ancestors, device, old(disk.Image()));
            (ok <==> r.Some?) && (ok ==> disk.Image() == r.value)
  {
    var bus := FindFirst(ancestors, device + 1, InDeviceTree);
    if bus.Some? {
      var entry := ancestors[bus.value];
      if entry.deviceTreeName.None? { return false; }
      var name := host.decodeUTF8(CStr(entry.deviceTreeName.value));
      if name.None? { return false; }
      disk.description := disk.description[BusNameKey := Str(name.value)];
      if entry.deviceTreePath.None? { return false; }
      var path := host.decodeUTF8(CStr(entry.deviceTreePath.value));
      if path.None? { return false; }
      disk.description := disk.description[BusPathKey := Str(path.value)];
    }
    return true;
  }

  /** Lines 719-734 on the disk being built. */
  method ApplyAutoMount(mediaChain: seq<Node>, disk: Disk)
    modifies disk
    ensures disk.Image() == AutoMount(mediaChain, old(disk.Image()))
  {
    var autoMount := SearchProperty(mediaChain, AutoDiskMountProperty);
    if autoMount.None? {
      disk.options := disk.options | OptionMountAutomatic;
    } else if autoMount.value == Bool(true) {
      disk.options := disk.options | (OptionMountAutomatic | OptionMountAutomaticNoDefer);
    }
  }

  /** Lines 740-751 on the disk being built. */
  method ApplyEjectUponLogout(deviceChain: seq<Node>, disk: Disk)
    modifies disk
    ensures disk.Image() == EjectUponLogout(deviceChain, old(disk.Image()))
  {
    var eject := SearchProperty(deviceChain, EjectUponLogoutProperty);
    if eject == Some(Bool(true)) {
      disk.options := disk.options | OptionEjectUponLogout;
    }
  }

  /** Lines 757-771 on the disk being built. */
  method ApplyDemotion(disk: Disk)
    modifies disk
    ensures disk.Image() == Demotion(old(disk.Image()))
  {
    if Lookup(disk.description, MediaRemovableKey) == Some(Bool(true)) {
      disk.userRGID := GID_UNKNOWN;
      disk.userRUID := UID_UNKNOWN;
    }
    if Lookup(disk.description, DeviceInternalKey) == Some(Bool(false)) {
      disk.userRGID := GID_UNKNOWN;
      disk.userRUID := UID_UNKNOWN;
    }
  }

  /** The four credential assignments both builders make from a passwd
      entry. */
  method SetCredentials(disk: Disk, user: Passwd)
    modifies disk
    ensures disk.Image() == WithCredentials(old(disk.Image()), user)
  {
    disk.userEGID := user.gid;
    disk.userEUID := user.uid;
    disk.userRGID := user.gid;
    disk.userRUID := user.uid;
  }

  /** Lines 773-796 on the disk being built. */
  method ApplyOwnerUser(host: Host, deviceChain: seq<Node>, disk: Disk)
    modifies disk
    ensures disk.Image() == OwnerUser(host, deviceChain, old(disk.Image()))
  {
    var owner := SearchProperty(deviceChain, OwnerUIDProperty);
    if owner.Some? && owner.value.Number? {
      var userUID := ToSInt32(owner.value.n);
      var user := host.accounts.UserByID(ToUInt32(userUID));
      if user.Some? {
        SetCredentials(disk, user.value);
      }
    }
  }

  /** Lines 798-812 on the disk being built. */
  method ApplyOwnerMode(deviceChain: seq<Node>, disk: Disk)
    modifies disk
    ensures disk.Image() == OwnerMode(deviceChain, old(disk.Image()))
  {
    var mode := SearchProperty(deviceChain, OwnerModeProperty);
    if mode.Some? && mode.value.Number? {
      disk.mode := ToUInt16(ToSInt32(mode.value.n));
    }
  }

  /** DADiskCreateFromIOMedia: a fresh disk exactly when the specification
      yields one, holding exactly that state. */
  method CreateFromIOMedia(host: Host, media: Node, ancestors: seq<Node>, now: real) returns (disk: Disk?)
    ensures var r := IOMediaImage(host, media, ancestors, now);
            (disk == null <==> r.None?) && (disk != null ==> fresh(disk) && disk.Image() == r.value)
  {
    var device;
    disk, device := CreatePlaced(host, media, ancestors, now);
    if disk == null { return null; }
    ApplyOwnership(host, [media] + ancestors, ancestors[device..], disk);
  }

  /** Lines 249-713: a fresh disk holding the media, device and bus
      entries and the appearance time, and the index of its block device. */
  method CreatePlaced(host: Host, media: Node, ancestors: seq<Node>, now: real) returns (disk: Disk?, device: nat)
    ensures var r := PlacedImage(host, media, ancestors, now);
            && (disk == null <==> r.None?)
            && (disk != null ==> fresh(disk) && disk.Image() == r.value && DeviceIndex(ancestors) == Some(device)
                                 && device < |ancestors|)
  {
    device := 0;
    disk := CreateDescribed(host, media, ancestors);
    if disk == null { return; }
    var found := FindFirst(ancestors, 0, IsBlockStorageDevice);
    if found.None? { return null, 0; }
    device := found.value;
    var ok := AddDeviceDescription(host, ancestors[device..], disk);
    if !ok { return null, device; }
    ok := AddBusDescription(host, ancestors, device, disk);
    if !ok { return null, device; }
    disk.description := disk.description[AppearanceTimeKey := Double(now)];
  }

  /** Lines 508-648 on the disk being built; `chain` starts at the device. */
  method AddDeviceDescription(host: Host, chain: seq<Node>, disk: Disk) returns (ok: bool)
    requires |chain| > 0
    modifies disk
    ensures var r := DeviceDescription(host, chain, old(disk.Image()));
            (ok <==> r.Some?) && (ok ==> disk.Image() == r.value)
  {
    if !chain[0].propertiesReadable { return false; }
    AddProtocolEntries(chain[0], disk);
    AddCharacteristicsEntries(chain[0], disk);
    ok := AddDeviceLocation(host, chain, disk);
  }

  /** Lines 716-812 on the disk being built. */
  method ApplyOwnership(host: Host, mediaChain: seq<Node>, deviceChain: seq<Node>, disk: Disk)
    modifies disk
    ensures disk.Image() == Ownership(host, mediaChain, deviceChain, old(disk.Image()))
  {
    ApplyAutoMount(mediaChain, disk);
    ApplyEjectUponLogout(deviceChain, disk);
    ApplyDemotion(disk);
    ApplyOwnerUser(host, deviceChain, disk);
    ApplyOwnerMode(deviceChain, disk);
  }

  /** Lines 855-868 on the disk being built. */
  method AddVolumeEntries(url: Url, fs: StatFs, disk: Disk)
    modifies disk
    ensures disk.Image() == VolumeEntries(url, fs, old(disk.Image()))
  {
    disk.bypath := Some(url);
    disk.description := disk.description[VolumePathKey := UrlValue(url)];
    disk.description := disk.description[VolumeMountableKey := Bool(true)];
    if fs.flags & MNT_LOCAL != 0 {
      disk.description := disk.description[VolumeNetworkKey := Bool(false)];
    } else {
      disk.description := disk.description[VolumeNetworkKey := Bool(true)];
    }
  }

  /** Lines 870-875 on the disk being built. */
  method MarkStaged(disk: Disk)
    modifies disk
    ensures disk.Image() == Staged(old(disk.Image()))
  {
    disk.state := disk.state | StateStagedProbe;
    disk.state := disk.state | StateStagedPeek;
    disk.state := disk.state | StateStagedRepair;
    disk.state := disk.state | StateStagedApprove;
    disk.state := disk.state | StateStagedAuthorize;
    disk.state := disk.state | StateStagedMount;
  }

  /** DADiskCreateFromVolumePath over the mount table getfsstat returns and
      the effective uid geteuid returns. */
  method CreateFromVolumePath(host: Host, path: Option<Url>, mounts: seq<StatFs>, euid: uint32) returns (disk: Disk?)
    ensures var r := VolumePathImage(host, path, mounts, euid);
            (disk == null <==> r.None?) && (disk != null ==> fresh(disk) && disk.Image() == r.value)
  {
    disk := null;
    if path.Some? {
      var fileSystemPath := URLCopyFileSystemRepresentation(host, path);
      if fileSystemPath.Some? {
        var status, fs := Statfs(fileSystemPath.value, mounts, euid);
        if status == 0 {
          disk := new Disk(fs.value.mntOnName);
          AddVolumeEntries(path.value, fs.value, disk);
          MarkStaged(disk);
          var user := host.accounts.UserByID(fs.value.owner);
          if user.Some? {
            SetCredentials(disk, user.value);
          }
        }
      }
    }
  }
}
