# DiskArbitration disk objects, in Dafny

A model of the disk object of `diskarbitrationd`, the macOS disk arbitration
daemon, and of the helpers it leans on.

- **The disk (`DADisk.c`).** A `DADisk` holds:
  - an identifier and a description dictionary;
  - a memoised serialisation of that description;
  - option and state bit sets;
  - owned references (bypath, claim, contexts, file system);
  - four credentials and a mode.

  Its setters update these fields in place; `DADiskSetDescription` also
  empties the serialisation cache. It compares and matches on
  its description. Two builders make disks: `DADiskCreateFromIOMedia` from an
  IOMedia registry entry, and `DADiskCreateFromVolumePath` from a mounted
  path.
- **The helpers (`DAInternal.c`).** These are:
  - the `___statfs` mount-table lookup, which prefers the effective user's
    mount;
  - the volume identifier;
  - the admin-group check;
  - removing a value from an array;
  - integer values in dictionaries;
  - the key rewriting done on a disk description around the property-list
    writer and reader;
  - the callback and request kind names.

Modules:

- `Wrappers`: `Option` and `Need`.
- `CFTypes`: the common types.
  - C strings are byte sequences read up to their first NUL.
  - CoreFoundation values form one datatype, and dictionaries are maps.
  - Machine integer conversions (`uint32`, `SInt32`, `SInt64`, `mode_t`) are
    written out.
- `Platform`: the user and group databases (`getpwuid`, `getgrgid`) and the
  text encoders and decoders, as functions passed in.
- `Registry`: the IOKit registry as a value.
  - A `Node` has its class names, whether it is in the device-tree plane, its
    properties, and its name and paths.
  - The parents of a media entry form one chain, nearest first.
  - `SearchProperty` is the recursive upward property search.
- `Decimal`: `%u` formatting and its inverse.
- `UuidText`: `CFUUIDCreateString` and `CFUUIDCreateFromString`.
- `DAInternal`: the helpers. The loops of `___statfs` and `___isadmin` are
  methods over sequences (the mount table, the group's member list). The
  in-place ones (`___CFArrayRemoveValue`, `___CFDictionarySetIntegerValue`,
  `_DAUnserializeDiskDescription`, `_DAVolumeGetID`) are methods over classes
  or arrays. Each is proved equal to a specification function, and lemmas
  are proved about those functions.
- `DADisk`: the `Disk` class with the fields of `__DADisk`.
  - `Image()` is its value as a `DiskImage`.
  - Every setter states its new image as the old one with its own field
    changed; `SetDescription` also empties the serialisation cache.
- `DiskBuilders`: both builders.
  - Each is a method that fills a new `Disk` in the stages of the source.
  - Each is proved to produce `IOMediaImage` or `VolumePathImage`. These are
    functions of the registry, the mount table, the user database and the
    clock reading.
  - The lemmas state what the source promises about those images: when a
    disk is made (all or nothing), the naming, every description entry, the
    options and the ownership.

## Model

| member | source | states |
|---|---|---|
| DADisk.Defaults | diskarbitrationd/DADisk.c:105-151 | a new disk's description holds only the disk identifier key |
| DADisk.DefaultsAnswer | diskarbitrationd/DADisk.c:105-151 | a new disk answers no option and no state for any mask; it has mode 0755 and unit -1 and belongs to root in group admin; it holds no bypath, claim, contexts, serialisation, file system, media or device; its only description entry is DADiskID, the id bytes followed by a NUL |
| DADisk.Disk.constructor | diskarbitrationd/DADisk.c:105-151 | the new disk's state is those defaults for the id read up to its NUL; the stored id holds no NUL |
| DADisk.SetBits | diskarbitrationd/DADisk.c:1222-1232 | the masked bits become the value given; every bit outside the mask keeps its value |
| DADisk.SetBitsThenHasBits | diskarbitrationd/DADisk.c:1222-1232 | after a set, querying the same mask answers the value set; an empty mask always answers false |
| DADisk.SetBitsKeepsDisjointBits | diskarbitrationd/DADisk.c:1222-1232 | setting one mask never changes the answer for a disjoint mask |
| DADisk.WriteDescription | diskarbitrationd/DADisk.c:1181-1198 | the key then holds the value, or is absent for no value; every other key reads as before |
| DADisk.MatchIsSubDictionary | diskarbitrationd/DADisk.c:186-215 | without a property-match criterion, a disk matches exactly when its description holds every criterion key with an equal value |
| DADisk.MatchFailsOnMissingKey | diskarbitrationd/DADisk.c:186-215 | one ordinary criterion key missing from the description makes the whole match fail |
| DADisk.Disk.GetDescription | diskarbitrationd/DADisk.c:931-934 | the answer is present exactly when the description holds the key, and it is the value stored under that key |
| DADisk.Disk.GetBSDPath | diskarbitrationd/DADisk.c:906-909 | the raw path when raw is asked for, otherwise the block path; for a media disk these are "/dev/r" + BSD name and "/dev/" + BSD name (`IOMediaIdentity`) |
| DADisk.Disk.GetOption | diskarbitrationd/DADisk.c:961-964 | an empty mask is never set; false when no bit of the mask is among the options, true when all of them are; after `SetOptions` its answer for the mask is the value set (`SetBitsThenHasBits`) and for a disjoint mask is unchanged (`SetBitsKeepsDisjointBits`) |
| DADisk.Disk.GetState | diskarbitrationd/DADisk.c:981-984 | the same for the state bits, with `SetState` |
| DADisk.Disk.GetBSDUnit | diskarbitrationd/DADisk.c:911-914 | a unit in range is returned as is; the unknown unit -1 reads as 0xFFFFFFFF |
| DADisk.Disk.CompareDescription | diskarbitrationd/DADisk.c:217-227 | the result is -1, 0 or 1; it is 0 exactly when the stored entry equals the value (both may be absent); it is 1 exactly when an entry is stored and no value is given |
| DADisk.Disk.Match | diskarbitrationd/DADisk.c:1106-1111 | the loop over the criteria answers `Matches`: every ordinary key equal, and the property-match key decided by the registry on the description's own value |
| DADisk.Disk.GetSerialization | diskarbitrationd/DADisk.c:971-979 | a cached serialisation is returned unchanged; otherwise the writer's output for the description is cached and returned; only the cache changes, and a coherent cache stays coherent |
| DADisk.Disk.SetBypath | diskarbitrationd/DADisk.c:1113-1128 | only the bypath changes, to the new reference |
| DADisk.Disk.SetClaim | diskarbitrationd/DADisk.c:1130-1145 | only the claim changes |
| DADisk.Disk.SetContext | diskarbitrationd/DADisk.c:1147-1162 | only the context changes |
| DADisk.Disk.SetContextRe | diskarbitrationd/DADisk.c:1164-1179 | only the second context changes |
| DADisk.Disk.SetDescription | diskarbitrationd/DADisk.c:1181-1198 | the description gets the write (a store or a removal), the serialisation cache is emptied, and nothing else changes; the cache is then coherent for every writer |
| DADisk.Disk.SetFileSystem | diskarbitrationd/DADisk.c:1200-1215 | only the file system changes |
| DADisk.Disk.SetOption | diskarbitrationd/DADisk.c:1217-1220 | the options change as a mask set of that one option; nothing else changes |
| DADisk.Disk.SetOptions | diskarbitrationd/DADisk.c:1222-1226 | the masked option bits become the value; the state and every other field stay |
| DADisk.Disk.SetState | diskarbitrationd/DADisk.c:1228-1232 | the masked state bits become the value; the options and every other field stay |
| DADisk.Disk.SetUserEGID | diskarbitrationd/DADisk.c:1234-1237 | only the effective group changes |
| DADisk.Disk.SetUserEUID | diskarbitrationd/DADisk.c:1239-1242 | only the effective user changes |
| DADisk.EqualIffSameID | diskarbitrationd/DADisk.c:171-177 | two disks are equal exactly when their identifiers are the same |
| DADisk.EqualDisksHashAlike | diskarbitrationd/DADisk.c:179-184 | equal disks hash alike, whatever the hash function computes |
| DADisk.HashReadsSixteenBytes | diskarbitrationd/DADisk.c:179-184 | identifiers that agree on their first 16 bytes hash alike |
| DiskBuilders.GetCString | diskarbitrationd/DADisk.c:259-260 | a converted name has no NUL and, with its NUL, fits the buffer |
| DiskBuilders.BigEndianRoundTrip | diskarbitrationd/DADisk.c:625-648 | the eight GUID bytes, most significant first, spell the GUID back |
| DiskBuilders.PutIfPresent | diskarbitrationd/DADisk.c:609-619 | an optional entry is stored when the registry has a value; otherwise, and for every other key, the dictionary reads as before |
| DiskBuilders.MediaKind | diskarbitrationd/DADisk.c:367-405 | the kind is the DVD class if the media is one, else the CD class if it is one, else the generic media class |
| DiskBuilders.IdentifiedImage | diskarbitrationd/DADisk.c:248-283 | the disk is created exactly when the media properties are readable, the BSD name is a string that fits io_name_t, and "/dev/" + name makes a URL |
| DiskBuilders.MediaNodeEntries | diskarbitrationd/DADisk.c:286-321 | succeeds exactly when the block size, BSD name, major and minor are all present; DAMediaBlockSize, DAMediaBSDName, DAMediaBSDMajor and DAMediaBSDMinor then hold those properties and the device node is makedev(major, minor); no other key and no other field changes |
| DiskBuilders.MediaUnitEntries | diskarbitrationd/DADisk.c:324-350 | succeeds exactly when the unit, content and ejectable are all present; DAMediaBSDUnit, DAMediaContent and DAMediaEjectable then hold them and the disk's unit is the unit read as SInt32; no other key and no other field changes |
| DiskBuilders.MediaKindEntries | diskarbitrationd/DADisk.c:353-414 | succeeds exactly when an icon is found upwards, the leaf is present, and a type is present for DVD or CD media; the kind entry is then the media kind, the icon is the one found, DVD or CD media get the media's type, and DAMediaLeaf holds the leaf; no other key (and for generic media not the type) changes |
| DiskBuilders.MediaNameEntries | diskarbitrationd/DADisk.c:417-479 | succeeds exactly when the name and the path (device-tree, else service plane) decode as UTF-8 or MacRoman and removable, size, whole and writable are present; DAMediaName and DAMediaPath then hold the decoded texts and the four other entries the properties; no other key changes |
| DiskBuilders.DeviceLocation | diskarbitrationd/DADisk.c:596-648 | succeeds exactly when the device's service-plane path exists and decodes as UTF-8; DADevicePath then holds that text, DADeviceUnit the unit found upwards (if any), DADeviceGUID the GUID's eight big-endian bytes when it is a number; no other key changes |
| DiskBuilders.BusDescription | diskarbitrationd/DADisk.c:655-701 | succeeds exactly when the first device-tree parent above the device, if any, has a name and a path that decode as UTF-8; with no such parent the disk is unchanged; otherwise DABusName and DABusPath hold the decoded texts and no other key changes |
| DiskBuilders.ProtocolEntries | diskarbitrationd/DADisk.c:515-558 | DADeviceInternal becomes true for an "Internal" location and false for an "External" one, else stays; DADeviceProtocol becomes the interconnect type when present, else stays; no other key changes |
| DiskBuilders.CharacteristicsEntries | diskarbitrationd/DADisk.c:560-593 | DADeviceModel, DADeviceRevision and DADeviceVendor become the product name, revision level and vendor name when present, else stay; no other key changes |
| DiskBuilders.GUIDEntry | diskarbitrationd/DADisk.c:625-648 | a number GUID is stored as its eight big-endian bytes, which read back as the GUID; otherwise the entry stays; no other key changes |
| DiskBuilders.DeviceDescription | diskarbitrationd/DADisk.c:508-648 | the device stage succeeds exactly when the device's properties are readable and its service-plane path decodes as UTF-8 |
| DiskBuilders.IOMediaIdentity | diskarbitrationd/DADisk.c:253-283 | a media disk's id is "/dev/" + BSD name; its block path is that id and its raw path is "/dev/r" + BSD name; it keeps the media and a non-directory device URL |
| DiskBuilders.IdentifiedNames | diskarbitrationd/DADisk.c:253-283 | the same naming facts right after creation, with the new-disk settings |
| DiskBuilders.DescriptionKeepsFields | diskarbitrationd/DADisk.c:286-479 | the media stages leave the naming fields, options, state, mode and credentials alone |
| DiskBuilders.PlacementKeepsFields | diskarbitrationd/DADisk.c:483-713 | the device, bus and appearance-time stages leave them alone too |
| DiskBuilders.OwnershipKeepsIdentity | diskarbitrationd/DADisk.c:716-812 | the option and owner stages leave the naming fields, the description and the state alone |
| DiskBuilders.OwnershipOptions | diskarbitrationd/DADisk.c:716-751 | starting from no options: MountAutomatic exactly when autodiskmount is absent or true; MountAutomaticNoDefer exactly when it is true; EjectUponLogout exactly when that property is true; no other bit |
| DiskBuilders.OwnershipCredentials | diskarbitrationd/DADisk.c:754-796 | a known owner-uid user sets all four credentials; otherwise the effective ones stay, and the real ones fall to the unknown user and group when the media is removable or the device external |
| DiskBuilders.OwnershipMode | diskarbitrationd/DADisk.c:798-812 | an owner-mode number, cut to int and then to mode_t, becomes the mode; otherwise the mode stays |
| DiskBuilders.IOMediaSettings | diskarbitrationd/DADisk.c:716-812 | a media disk's options are exactly those rules, from the block device's chain; its state is empty; its mode is the owner-mode or 0755; its credentials are the owner's, or else root and admin with the real ones demoted for removable or external media |
| DiskBuilders.PlacedSettings | diskarbitrationd/DADisk.c:248-713 | until options and ownership are applied, the disk has a new disk's settings |
| DiskBuilders.OwnershipOfDefaults | diskarbitrationd/DADisk.c:716-812 | options and ownership applied to a new disk's settings give exactly the options, empty state, mode and credentials of `IOMediaSettings` |
| DiskBuilders.OptionBitsCombined | diskarbitrationd/DADisk.c:716-751 | each option bit the automatic-mount and eject rules can set reads back as set exactly when its rule set it, and no other bit is set |
| DiskBuilders.IOMediaNeedsMandatoryKeys | diskarbitrationd/DADisk.c:248-479 | unreadable media properties, or any one mandatory property missing, gives no disk |
| DiskBuilders.MandatoryKeysPresent | diskarbitrationd/DADisk.c:248-479 | a media disk implies readable properties with every mandatory key (the type too for DVD or CD), a name and a path, and an icon found upwards |
| DiskBuilders.DevicePresent | diskarbitrationd/DADisk.c:483-701 | a media disk implies a block-storage parent (the nearest one) whose properties are readable and which has a path; the first device-tree parent above it, if any, has a name and a path |
| DiskBuilders.IOMediaSucceeds | diskarbitrationd/DADisk.c:229-831 | all or nothing: a media disk is made exactly when the media entry is complete (readable, BSD name and /dev URL, every mandatory property, the type for DVD or CD, an icon upwards, a name and path that decode) and a block device with readable properties and a decodable path lies above it, with a decodable name and path on the first device-tree parent above that, if any |
| DiskBuilders.MediaStagesSucceed | diskarbitrationd/DADisk.c:286-479 | the media stages succeed exactly when the mandatory properties, the type for DVD or CD, an icon and decodable name and path are there |
| DiskBuilders.MandatoryKeysByStage | diskarbitrationd/DADisk.c:286-479 | the mandatory media properties are exactly those the four media stages require between them |
| DiskBuilders.DescribedSucceeds | diskarbitrationd/DADisk.c:248-479 | the media disk is described exactly when the media entry is complete |
| DiskBuilders.PlacedSucceeds | diskarbitrationd/DADisk.c:248-713 | the build up to the appearance time succeeds exactly when the media entry and the device above it are complete |
| DiskBuilders.IdentifiedEntries | diskarbitrationd/DADisk.c:248-283 | right after creation the description holds DADiskID (the id and its NUL), DAVolumeNetwork = false, and nothing else |
| DiskBuilders.MediaStagesEntries | diskarbitrationd/DADisk.c:286-479 | after the media stages each of the 17 media entries holds its property (or the kind, icon, decoded name and path), and every other key is as before |
| DiskBuilders.DescribedKeysOnly | diskarbitrationd/DADisk.c:248-479 | a described disk holds only media keys, DADiskID and DAVolumeNetwork |
| DiskBuilders.CharacteristicsStageEntries | diskarbitrationd/DADisk.c:515-593 | on a description without device entries, the protocol and characteristics stages leave the model, revision, vendor, protocol and internal flag as their sub-dictionaries give them, and no other key changes |
| DiskBuilders.LocationStageEntries | diskarbitrationd/DADisk.c:596-648 | on a description without unit or GUID, the location stage leaves the path, the unit found and the GUID bytes (or none), and no other key changes |
| DiskBuilders.DeviceStageEntries | diskarbitrationd/DADisk.c:508-648 | the device stage, on a description without device entries, gives all eight device entries their values |
| DiskBuilders.DeviceStageKeys | diskarbitrationd/DADisk.c:508-648 | the device stage changes no key outside the eight device keys |
| DiskBuilders.BusTimeFrame | diskarbitrationd/DADisk.c:655-713 | the bus and appearance-time stages change no key but their own |
| DiskBuilders.PlacementKeepsEntries | diskarbitrationd/DADisk.c:483-713 | the device, bus and appearance-time stages leave every other entry as the media stages left it |
| DiskBuilders.PlacedStages | diskarbitrationd/DADisk.c:229-831 | the finished disk's description is the bus stage's over the device stage's, plus the appearance time; ownership leaves it as is |
| DiskBuilders.DescribedPlacementKeysAbsent | diskarbitrationd/DADisk.c:248-479 | a described disk has no device or bus entry yet |
| DiskBuilders.IOMediaMediaEntries | diskarbitrationd/DADisk.c:229-831 | a media disk's description holds DADiskID and DAVolumeNetwork = false, each mandatory media property under its description key, the kind, the icon found upwards, the type for DVD or CD media (none otherwise), and the decoded name and path |
| DiskBuilders.IOMediaDeviceEntries | diskarbitrationd/DADisk.c:229-831 | a media disk's description holds the device path, the unit and GUID found upwards from the device, and the model, revision, vendor, protocol and internal flag its characteristics give (none where absent) |
| DiskBuilders.IOMediaBusEntries | diskarbitrationd/DADisk.c:229-831 | a media disk's description holds the appearance time, and the bus name and path when a device-tree parent lies above the device (none otherwise) |
| DiskBuilders.IOMediaKeysOnly | diskarbitrationd/DADisk.c:229-831 | a media disk's description holds no key beyond the media, device and bus entries, DADiskID, DAVolumeNetwork and the appearance time |
| DiskBuilders.VolumePathExists | diskarbitrationd/DADisk.c:833-894 | a volume disk exists exactly when the path is given, converts to a file-system path, and something is mounted on it |
| DiskBuilders.VolumePathDisk | diskarbitrationd/DADisk.c:833-894 | the volume disk is the one made for the mount-table entry the lookup picks; that entry is in the table and mounted on the path |
| DiskBuilders.VolumeDiskEntries | diskarbitrationd/DADisk.c:845-868 | the disk is named after the mount point and keeps the path as bypath; its description holds exactly DADiskID, DAVolumePath, DAVolumeMountable (true) and DAVolumeNetwork, which is true exactly when the mount is not local |
| DiskBuilders.VolumeDiskSettings | diskarbitrationd/DADisk.c:870-886 | all six staged-state bits are set, there are no options and the mode is 0755; the credentials are the mount owner's if that user exists, otherwise root and admin |
| DiskBuilders.CreateIdentified | diskarbitrationd/DADisk.c:248-283 | the disk is created exactly when the identification stage succeeds, with that stage's image |
| DiskBuilders.AttachMedia | diskarbitrationd/DADisk.c:268-283 | the fresh disk gets the device URL, both paths, the media and DAVolumeNetwork = false |
| DiskBuilders.AddMediaNode | diskarbitrationd/DADisk.c:286-321 | success exactly as the stage function, with its image |
| DiskBuilders.AddMediaUnit | diskarbitrationd/DADisk.c:324-350 | success exactly as the stage function, with its image |
| DiskBuilders.AddMediaKind | diskarbitrationd/DADisk.c:353-414 | success exactly as the stage function, with its image |
| DiskBuilders.AddMediaNames | diskarbitrationd/DADisk.c:417-479 | success exactly as the stage function, with its image |
| DiskBuilders.CreateDescribed | diskarbitrationd/DADisk.c:248-479 | a disk exactly when the identified and described image exists, equal to it |
| DiskBuilders.AddProtocolEntries | diskarbitrationd/DADisk.c:515-558 | the protocol entries are written as the protocol-characteristics stage defines |
| DiskBuilders.AddCharacteristicsEntries | diskarbitrationd/DADisk.c:560-593 | the model, revision and vendor entries are written as the device-characteristics stage defines |
| DiskBuilders.AddDeviceLocation | diskarbitrationd/DADisk.c:596-648 | success exactly as the device-location stage, with its image |
| DiskBuilders.AddBusDescription | diskarbitrationd/DADisk.c:655-701 | the iterator walk gives success exactly as the bus stage does, with its image |
| DiskBuilders.ApplyAutoMount | diskarbitrationd/DADisk.c:716-734 | the options become those of the automatic-mount rule |
| DiskBuilders.ApplyEjectUponLogout | diskarbitrationd/DADisk.c:737-751 | the options become those of the eject rule |
| DiskBuilders.ApplyDemotion | diskarbitrationd/DADisk.c:754-771 | the real credentials become those of the demotion rule |
| DiskBuilders.SetCredentials | diskarbitrationd/DADisk.c:787-795 | all four credentials come from the passwd entry |
| DiskBuilders.ApplyOwnerUser | diskarbitrationd/DADisk.c:773-796 | the credentials become those of the owner-uid rule |
| DiskBuilders.ApplyOwnerMode | diskarbitrationd/DADisk.c:798-812 | the mode becomes that of the owner-mode rule |
| DiskBuilders.CreateFromIOMedia | diskarbitrationd/DADisk.c:229-831 | a disk is returned exactly when `IOMediaImage` exists, fresh and equal to it; `IOMediaSucceeds` says when that is and the IOMedia lemmas what it holds |
| DiskBuilders.CreatePlaced | diskarbitrationd/DADisk.c:248-713 | a fresh disk exactly when the build up to the appearance time succeeds, equal to it, with the index of the nearest block device |
| DiskBuilders.AddDeviceDescription | diskarbitrationd/DADisk.c:508-648 | the device stage on the disk being built: success exactly as the device-description function, with its image |
| DiskBuilders.ApplyOwnership | diskarbitrationd/DADisk.c:716-812 | the disk becomes what the options-and-ownership function gives |
| DiskBuilders.AddVolumeEntries | diskarbitrationd/DADisk.c:855-868 | the bypath and the three volume entries are written as the volume-entries function defines |
| DiskBuilders.MarkStaged | diskarbitrationd/DADisk.c:870-875 | the six staged bits are or-ed into the state |
| DiskBuilders.CreateFromVolumePath | diskarbitrationd/DADisk.c:833-894 | a disk is returned exactly when `VolumePathImage` exists, fresh and equal to it |
| Registry.SearchProperty | diskarbitrationd/DADisk.c:719-723 | a value is found exactly when some entry of the chain has the key; it is the value of the nearest such entry |
| Registry.FirstIndex | diskarbitrationd/DADisk.c:493-498 | the index found satisfies the test and no earlier index from the start does; none is found only when no index satisfies it |
| Registry.FindFirst | diskarbitrationd/DADisk.c:487-500 | the iterator loop finds exactly `FirstIndex` |
| DAInternal.CallbackKindGetName | diskarbitrationd/DAInternal.c:343-346 | the name comes from the 15-entry table; kind 14 and only kind 14 is "idle" |
| DAInternal.RequestKindGetName | diskarbitrationd/DAInternal.c:348-351 | the same table for request kinds |
| DAInternal.KindNamesDistinct | diskarbitrationd/DAInternal.c:109-126 | different kinds have different names |
| DAInternal.IsAdmin | diskarbitrationd/DAInternal.c:130-157 | 1 exactly when the admin group exists, the uid names a user, and that user's name is among the group's members; 0 otherwise |
| DAInternal.FirstOwnedMount | diskarbitrationd/DAInternal.c:173-194 | the first entry from a position that is mounted on the path and owned by the user, or none exists |
| DAInternal.LastMount | diskarbitrationd/DAInternal.c:173-194 | the last entry below a bound that is mounted on the path, or none exists |
| DAInternal.Statfs | diskarbitrationd/DAInternal.c:159-201 | returns 0 exactly when some entry is mounted on the path, else -1; the entry copied out is `StatfsEntry` |
| DAInternal.StatfsEntryChoice | diskarbitrationd/DAInternal.c:159-201 | an entry is found exactly when one is mounted on the path; it is the first such entry the user owns if there is one, otherwise the last such entry |
| DAInternal.ArrayContainsValue | diskarbitrationd/DAInternal.c:203-206 | membership over the whole array |
| DAInternal.ArrayRemoveValue | diskarbitrationd/DAInternal.c:208-218 | the array becomes `RemoveFirst` of its old contents |
| DAInternal.RemoveFirstAbsent | diskarbitrationd/DAInternal.c:208-218 | removing an absent value leaves the array unchanged |
| DAInternal.RemoveFirstPresent | diskarbitrationd/DAInternal.c:208-218 | removing a present value takes out exactly its first copy: one element shorter, one copy fewer in the multiset, the rest in order |
| DAInternal.GetIntegerValue | diskarbitrationd/DAInternal.c:236-249 | an absent key reads as 0 |
| DAInternal.SetIntegerValue | diskarbitrationd/DAInternal.c:251-263 | the key maps to the number and every other entry stays |
| DAInternal.IntegerValueRoundTrip | diskarbitrationd/DAInternal.c:236-263 | reading back a value set gives that value, and other keys read as before |
| DAInternal.StringCopyCString | diskarbitrationd/DAInternal.c:283-314 | no string gives no C string |
| DAInternal.URLCopyFileSystemRepresentation | diskarbitrationd/DAInternal.c:316-341 | no URL gives no path |
| DAInternal.SerializationCopy | diskarbitrationd/DAInternal.c:372-435 | the copy has the same keys; only the media-UUID, volume-path and volume-UUID entries are rewritten, to strings; the input is not changed |
| DAInternal.SerializeDiskDescription | diskarbitrationd/DAInternal.c:372-435 | a null description gives no data |
| DAInternal.RewriteKey | diskarbitrationd/DAInternal.c:452-464 | one in-place conversion changes at most the named key |
| DAInternal.UnserializedForm | diskarbitrationd/DAInternal.c:442-496 | the same keys; only the three rewritten keys are converted back; every other entry stays as decoded |
| DAInternal.UnserializeDiskDescription | diskarbitrationd/DAInternal.c:442-496 | null exactly when the reader gives no dictionary; otherwise a fresh dictionary holding `UnserializedForm` of what was read |
| DAInternal.ConvertUuidEntry | diskarbitrationd/DAInternal.c:452-464 | a UUID key is converted in place as `RewriteKey` defines |
| DAInternal.ConvertPathEntry | diskarbitrationd/DAInternal.c:466-478 | the volume-path key is converted in place as `RewriteKey` defines |
| DAInternal.RewritingRoundTrip | diskarbitrationd/DAInternal.c:372-496 | unserialising a serialised copy gives back the description when its rewritten keys hold UUIDs and a directory URL |
| DAInternal.ValueRoundTrip | diskarbitrationd/DAInternal.c:386-426 | the same, one key at a time |
| DAInternal.DescriptionRoundTrip | diskarbitrationd/DAInternal.c:372-496 | with a reader that reads back what the writer wrote, the full serialise-then-unserialise trip gives back the description |
| DAInternal.VolumeCopyID | diskarbitrationd/DAInternal.c:540-554 | a volume mounted from a /dev node is named by that node; any other is named "<mount point>?owner=<decimal uid>" |
| DAInternal.VolumeIDDeterminesMount | diskarbitrationd/DAInternal.c:540-554 | two non-device volumes whose mount points contain no '?' share an identifier only when mount point and owner agree |
| DAInternal.VolumeGetID | diskarbitrationd/DAInternal.c:556-570 | the static buffer receives the same string as `VolumeCopyID`, then a NUL, and it always fits |
| DAInternal.VolumeIDFits | diskarbitrationd/DAInternal.c:556-570 | for names shorter than MNAMELEN, the identifier is shorter than the buffer |
| DAInternal.CopyCString | diskarbitrationd/DAInternal.c:563-567 | a string shorter than the buffer is copied with its NUL |
| Decimal.DecimalRoundTrip | diskarbitrationd/DAInternal.c:540-554 | the `%u` digits read back as the number |
| Decimal.UInt32DecimalLength | diskarbitrationd/DAInternal.c:556-570 | a 32-bit owner takes at most ten digits |
| UuidText.UuidRoundTrip | diskarbitrationd/DAInternal.c:452-464 | parsing the string form of a UUID gives that UUID back |
| UuidText.UuidStringInjective | diskarbitrationd/DAInternal.c:386-398 | different UUIDs have different strings |
| CFTypes.ToUInt32 | diskarbitrationd/DADisk.c:782-787 | the value wrapped modulo 2^32, as an int passed where a uid_t is expected |
| CFTypes.ToUInt64 | diskarbitrationd/DADisk.c:634-640 | the GUID read as an unsigned 64-bit value, in range and congruent to the number |
| CFTypes.ToSInt64 | diskarbitrationd/DAInternal.c:241-246 | the number as a signed 64-bit value: in range and congruent modulo 2^64 |
| DiskBuilders.DeviceKeepsFields | diskarbitrationd/DADisk.c:508-648 | the device-properties stage leaves the naming fields and the settings alone |
| Decimal.DecimalString | diskarbitrationd/DAInternal.c:540-554 | `%u` output: at least one digit, only digits, no leading zero |
| Decimal.DecimalLengthBound | diskarbitrationd/DAInternal.c:556-570 | a number below 10^k takes at most k digits |
| UuidText.UuidString | diskarbitrationd/DAInternal.c:386-398 | the 36-character string form, with hyphens at positions 8, 13, 18 and 23 |
| UuidText.HexRoundTrip | diskarbitrationd/DAInternal.c:452-464 | hex digits of a byte string parse back to those bytes |
| CFTypes.CStr | diskarbitrationd/DADisk.c:171-177 | the string up to the first NUL: a prefix with no NUL, followed by a NUL when shorter |
| CFTypes.ToUInt16 | diskarbitrationd/DADisk.c:806-811 | the value modulo 2^16, as a mode_t stores an int |
| CFTypes.ToSInt32 | diskarbitrationd/DADisk.c:782-787 | the value as a 32-bit two's-complement int |

## Left out

- The IOKit registry is a value, not a live tree. The parents of a media
  entry are one chain, nearest first. The service-plane iterators and the
  upward searches walk that chain, and a node may or may not be in the
  device-tree plane.
- `IORegistryEntryCreateCFProperties` failing is modelled as the node's
  `propertiesReadable` flag being false.
- `getpwuid`, `getgrgid`, `geteuid` and `getfsstat` are inputs: a user
  database, a mount table and a uid. `getfsstat` returning no entries or an
  error is an empty table.
- The property-list writer and reader, `CFHashBytes` and
  `IOServiceMatchPropertyTable` are function parameters. UTF-8 encoding and
  decoding, MacRoman decoding and `makedev` are functions in the `Host`
  record.
- The appearance time is the parameter `now`. It is stored as a real and no
  floating-point behaviour is modelled.
- Memory management is not modelled: `CFRetain`, `CFRelease`,
  `IOObjectRelease`, `__DADiskDeallocate`, `strdup` and `free`. Owned
  references are `Option` values, and each setter's release-then-retain is
  a plain assignment.
- Allocation failures are not modelled: `_CFRuntimeCreateInstance`,
  `CFDataCreate`, `CFDictionaryCreateMutableCopy`, `CFNumberCreate` and
  `CFURLCreate*` always succeed. The only exception is a device URL the
  decoder rejects.
- `CFNumberGetValue` on an object that is not a number has no effect in the
  model. In the source that is undefined. The same goes for protocol and
  characteristics sub-values that are not dictionaries or strings.
- DiskBuilders.GUIDEntry: a GUID property that is not a number stores no
  DADeviceGUID entry. The source still stores eight bytes, taken from a
  UInt64 that `CFNumberGetValue` never wrote, so their content is undefined.
- DAInternal.GetIntegerValue, DiskBuilders.NumberAsSInt32,
  DiskBuilders.GUIDEntry, DiskBuilders.OwnerAccount and
  DiskBuilders.OwnerMode: a number is an integer. A floating-point
  CFNumber is treated as not a number; `CFNumberGetValue` would convert it
  to an integer.
- DADisk.Disk.CompareDescription and DADisk.Disk.Match: `CFEqual` is value
  equality on the model's values. So an integer and a floating-point
  CFNumber of the same value are unequal, where `CFEqual` compares CFNumbers
  by value.
- DAInternal.SerializedValue and DAInternal.UnserializedValue: a value of
  the wrong type under the media-UUID, volume-UUID or volume-path key (not a
  UUID, not a URL, not a string) is kept as it is. The source hands it to
  the CFUUID or CFURL call regardless, which is undefined for it.
- DiskBuilders.OwnerAccount: an owner-uid that is not a number gives no
  user, where the source would read an uninitialised int.
- DAInternal.UnserializeDiskDescription: a property list that is not a
  dictionary gives no description. The source would go on to treat it as a
  dictionary.
- `CFUUIDCreateFromString` accepts only the canonical 8-4-4-4-12 layout in
  either letter case. Other layouts that CoreFoundation may accept are left
  out.
- `DADiskLog`, `___CFDataCopyBytes`, `DADiskInitialize`, `DADiskGetTypeID`,
  the CF description callbacks and `DAPrivate.h` are left out. They are
  logging, memory plumbing, type registration and declarations.
- The plain field getters are not separate members: `DADiskGetBypath`,
  `GetBSDNode`, `GetClaim`, `GetContext`, `GetContextRe`, `GetDevice`,
  `GetFileSystem`, `GetID`, `GetIOMedia`, `GetMode`, `GetOptions` and the
  four `GetUser*ID`. Each reads a field of `Disk` directly.
- `DADiskSetUserRGID` and `DADiskSetUserRUID` are not in `DADisk.c`. The
  real credentials change only in the builders.
- `DADisk.h`, `DAInternal.h`, `sys/mount.h` and the IOKit headers are not
  part of this model. These values are assumed:
  - the option and state bit values;
  - `MNT_LOCAL` and `MNAMELEN`;
  - the uid and gid values of root, admin and unknown (0, 80, 99, 99);
  - the IOKit property-key strings.
- DiskBuilders.IOMediaSettings: demotion is stated through the finished
  disk's own DAMediaRemovable and DADeviceInternal entries.
  `IOMediaMediaEntries` and `IOMediaDeviceEntries` give those entries'
  values from the registry.
