/** The operating-system services the disk entity consults, taken as inputs:
    the user and group databases (getpwuid, getgrgid) and the text
    conversions CoreFoundation performs between C strings and CFStrings. */
module Platform {
  import opened Wrappers
  import opened CFTypes

  /** The fields of a `struct passwd` the model reads. */
  datatype Passwd = Passwd(name: CString, uid: uint32, gid: uint32)

  /** The member list of a `struct group` (gr_mem, without its NULL terminator). */
  datatype Group = Group(members: seq<CString>)

  datatype UserDatabase = UserDatabase(users: map<uint32, Passwd>, groups: map<uint32, Group>) {
    /** getpwuid */
    function UserByID(uid: uint32): Option<Passwd> {
      if uid in users then Some(users[uid]) else None
    }

    /** getgrgid */
    function GroupByID(gid: uint32): Option<Group> {
      if gid in groups then Some(groups[gid]) else None
    }
  }

  /** Text conversions, each a partial function:
      - encodeUTF8: CFStringGetCString / CFStringGetBytes with kCFStringEncodingUTF8;
      - decodeUTF8: CFStringCreateWithCString with kCFStringEncodingUTF8
        (also used for CFURLCreateFromFileSystemRepresentation);
      - decodeMacRoman: the same with kCFStringEncodingMacRoman.
      makeDevice combines the BSD major and minor number values (CFNumberGetValue
      followed by makedev). */
  datatype Host = Host(
    encodeUTF8: string -> Option<CString>,
    decodeUTF8: CString -> Option<string>,
    decodeMacRoman: CString -> Option<string>,
    makeDevice: (Value, Value) -> int,
    accounts: UserDatabase)
}
