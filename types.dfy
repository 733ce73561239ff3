/** Entities shared by every part of the system (the shared type package). */
module Types {

  datatype Option<+T> = None | Some(value: T)

  /** One octet of file content. */
  newtype Byte = b: int | 0 <= b < 256

  /** JavaScript truthiness of an optional string: absent and empty are both false. */
  predicate Truthy(s: Option<string>)
  {
    s.Some? && s.value != ""
  }

  /** A device on the local network. `peerId` is the channel identity, attached once the
      channel endpoint has initialised; until then it is absent. */
  datatype Device = Device(
    id: string,
    name: string,
    platform: string,
    ip: Option<string>,
    timestamp: int,
    peerId: Option<string>)

  datatype Status = Pending | Sending | Receiving | Completed | Failed

  /** One logical file moving between two devices. `progress` is a percentage. */
  datatype Transfer = Transfer(
    id: string,
    fileName: string,
    fileSize: int,
    progress: real,
    status: Status)

  /** The description of a file that precedes its chunks on the channel. */
  datatype FileMetadata = FileMetadata(name: string, size: int, mimeType: string, lastModified: int)

  /** A local file handed to the sender. Its size is the number of its bytes. */
  datatype File = File(name: string, mimeType: string, lastModified: int, bytes: seq<Byte>)
  {
    function Size(): nat { |bytes| }
  }
}
