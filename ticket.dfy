/** The commands a ticket can send back to the operating system for one in-flight
    operation. Executing them (`command::*::execute`) is a foreign call and is not modelled:
    a command is the value that would be executed, together with the key pair it targets. */
module Command {
  import opened Primitives

  /** The opaque keys that identify one connection and one in-flight transfer. */
  type ConnectionKey(==, !new)
  type TransferKey(==, !new)

  datatype KeyPair = KeyPair(connection: ConnectionKey, transfer: TransferKey)

  /** `Range<u64>`: the bytes `start..end`. */
  datatype ByteRange = ByteRange(start: uint64, end: uint64)

  /** A placeholder entry to create; its layout lives outside this model. */
  type PlaceholderFile(==, !new)

  datatype Command =
    | Read(buffer: seq<uint8>, position: uint64)
    | Write(buffer: seq<uint8>, position: uint64)
    | Validate(range: ByteRange)
    | CreatePlaceholders(total: nat, placeholders: seq<PlaceholderFile>)
    | Dehydrate(blob: seq<uint8>)
    | Delete
    | Rename

  /** What a ticket asks of the operating system: a command executed on a key pair, or a
      progress report (`CfReportProviderProgress`) on it. */
  datatype OsCall =
    | Execute(keys: KeyPair, command: Command)
    | ReportProviderProgress(keys: KeyPair, total: int64, completed: int64)

  /** The kinds of request, for the capability table. */
  datatype CallKind =
    | ReadData
    | WriteData
    | ReportProgress
    | ValidateRange
    | CreatePlaceholderEntries
    | DehydrateFile
    | DeleteFile
    | RenameFile

  function KindOf(call: OsCall): (k: CallKind)
    ensures k == ReportProgress <==> call.ReportProviderProgress?
  {
    match call
    case ReportProviderProgress(_, _, _) => ReportProgress
    case Execute(_, command) =>
      match command
      case Read(_, _) => ReadData
      case Write(_, _) => WriteData
      case Validate(_) => ValidateRange
      case CreatePlaceholders(_, _) => CreatePlaceholderEntries
      case Dehydrate(_) => DehydrateFile
      case Delete => DeleteFile
      case Rename => RenameFile
  }

  /** A `CreatePlaceholders` command announces as its total the number of entries it carries. */
  predicate WellFormed(call: OsCall) {
    call.Execute? && call.command.CreatePlaceholders? ==>
      call.command.total == |call.command.placeholders|
  }
}

/** Capability-scoped tickets: one type per terminating callback, each holding the key pair
    of its operation and offering only the commands legal for that callback. Each ticket
    method is the `OsCall` it would hand to the operating system. */
module Ticket {
  import opened Primitives
  import opened Command

  /** The platform's transfer alignment for `write_at`. */
  const TRANSFER_CHUNK: nat := 4096

  /** The ticket types, for the capability table. */
  datatype TicketKind =
    | FetchDataTicket
    | ValidateDataTicket
    | FetchPlaceholdersTicket
    | DehydrateTicket
    | DeleteTicket
    | RenameTicket

  /** The capability table: the kinds of call each ticket type can make. */
  function Capabilities(k: TicketKind): set<CallKind> {
    match k
    case FetchDataTicket => {ReadData, WriteData, ReportProgress}
    case ValidateDataTicket => {ReadData, ValidateRange}
    case FetchPlaceholdersTicket => {CreatePlaceholderEntries}
    case DehydrateTicket => {DehydrateFile}
    case DeleteTicket => {DeleteFile}
    case RenameTicket => {RenameFile}
  }

  /** Only a read can be made from two ticket types (fetch and validate); every other kind
      of call belongs to exactly one ticket type. */
  lemma CapabilitiesDisjoint(k1: TicketKind, k2: TicketKind, c: CallKind)
    requires c in Capabilities(k1) && c in Capabilities(k2) && k1 != k2
    ensures c == ReadData
    ensures {k1, k2} == {FetchDataTicket, ValidateDataTicket}
  {
  }

  /** The calls a ticket with key pair `keys` and type `k` is able to make: the right kind,
      on its own key pair, and well formed. */
  predicate Permitted(k: TicketKind, keys: KeyPair, call: OsCall) {
    call.keys == keys && KindOf(call) in Capabilities(k) && WellFormed(call)
  }

  /** A ticket for the `fetch_data` callback. */
  datatype FetchData = FetchData(connectionKey: ConnectionKey, transferKey: TransferKey) {

    static function New(connectionKey: ConnectionKey, transferKey: TransferKey): (t: FetchData)
      ensures t.connectionKey == connectionKey && t.transferKey == transferKey
    {
      FetchData(connectionKey, transferKey)
    }

    function Keys(): KeyPair {
      KeyPair(connectionKey, transferKey)
    }

    /** `report_progress(total, completed)`: both counts forwarded as their `i64` bit
        patterns, which read back as the values given. */
    function ReportProgress(total: uint64, completed: uint64): (call: OsCall)
      ensures call.ReportProviderProgress? && call.keys == Keys()
      ensures AsUint64(call.total) == total && AsUint64(call.completed) == completed
    {
      AsInt64RoundTrip(total);
      AsInt64RoundTrip(completed);
      ReportProviderProgress(Keys(), AsInt64(total), AsInt64(completed))
    }

    /** `read_at(buf, offset)`. */
    function ReadAt(buf: seq<uint8>, offset: uint64): (call: OsCall)
      ensures call.Execute? && call.keys == Keys()
      ensures call.command.Read? && call.command.buffer == buf && call.command.position == offset
    {
      Execute(Keys(), Read(buf, offset))
    }

    /** `write_at(buf, offset)`: the buffer must be one transfer chunk long or end on
        `size`, the logical size of the file being hydrated. */
    function WriteAt(buf: seq<uint8>, offset: uint64, ghost size: nat): (call: OsCall)
      requires |buf| == TRANSFER_CHUNK || offset + |buf| == size
      ensures call.Execute? && call.keys == Keys()
      ensures call.command.Write? && call.command.buffer == buf && call.command.position == offset
    {
      Execute(Keys(), Write(buf, offset))
    }

    /** The calls this ticket is able to make through its methods, while hydrating a file
        whose logical size is `size`. */
    ghost predicate CanMake(call: OsCall, size: nat) {
      || (exists total: uint64, completed: uint64 :: call == ReportProgress(total, completed))
      || (exists buf: seq<uint8>, offset: uint64 :: call == ReadAt(buf, offset))
      || (exists buf: seq<uint8>, offset: uint64
            | |buf| == TRANSFER_CHUNK || offset + |buf| == size :: call == WriteAt(buf, offset, size))
    }
  }

  /** A write into a file of logical size `size` is one transfer chunk long or ends on `size`;
      every other call meets this trivially. */
  predicate WriteFits(call: OsCall, size: nat) {
    call.Execute? && call.command.Write? ==>
      |call.command.buffer| == TRANSFER_CHUNK || call.command.position + |call.command.buffer| == size
  }

  /** A fetch-data ticket hydrating a file of logical size `size` makes exactly the calls its
      row of the capability table permits, with every write fitting that size. */
  lemma FetchDataCapabilities(t: FetchData, size: nat, call: OsCall)
    ensures t.CanMake(call, size) <==> Permitted(FetchDataTicket, t.Keys(), call) && WriteFits(call, size)
  {
    if Permitted(FetchDataTicket, t.Keys(), call) && WriteFits(call, size) {
      match call
      case ReportProviderProgress(_, total, completed) =>
        AsUint64RoundTrip(total);
        AsUint64RoundTrip(completed);
        assert call == t.ReportProgress(AsUint64(total), AsUint64(completed));
      case Execute(_, command) =>
        match command
        case Read(buf, offset) =>
          assert call == t.ReadAt(buf, offset);
        case Write(buf, offset) =>
          assert call == t.WriteAt(buf, offset, size);
    }
  }

  /** Hence a short write that stops before the end of the file is refused: 100 bytes at
      offset 0 of a 1000-byte file is not a call the ticket can make. */
  lemma ShortWriteInsideFileRefused(t: FetchData, buf: seq<uint8>)
    requires |buf| == 100
    ensures !t.CanMake(Execute(t.Keys(), Write(buf, 0)), 1000)
  {
    FetchDataCapabilities(t, 1000, Execute(t.Keys(), Write(buf, 0)));
  }

  /** A ticket for the `validate_data` callback. */
  datatype ValidateData = ValidateData(connectionKey: ConnectionKey, transferKey: TransferKey) {

    static function New(connectionKey: ConnectionKey, transferKey: TransferKey): (t: ValidateData)
      ensures t.connectionKey == connectionKey && t.transferKey == transferKey
    {
      ValidateData(connectionKey, transferKey)
    }

    function Keys(): KeyPair {
      KeyPair(connectionKey, transferKey)
    }

    /** `pass(range)`: acknowledges the range as valid. */
    function Pass(range: ByteRange): (call: OsCall)
      ensures call.Execute? && call.keys == Keys()
      ensures call.command.Validate? && call.command.range == range
    {
      Execute(Keys(), Validate(range))
    }

    /** `read_at(buf, offset)`. */
    function ReadAt(buf: seq<uint8>, offset: uint64): (call: OsCall)
      ensures call.Execute? && call.keys == Keys()
      ensures call.command.Read? && call.command.buffer == buf && call.command.position == offset
    {
      Execute(Keys(), Read(buf, offset))
    }

    ghost predicate CanMake(call: OsCall) {
      || (exists range: ByteRange :: call == Pass(range))
      || (exists buf: seq<uint8>, offset: uint64 :: call == ReadAt(buf, offset))
    }
  }

  /** A validate-data ticket makes exactly the calls its row of the capability table permits. */
  lemma ValidateDataCapabilities(t: ValidateData, call: OsCall)
    ensures t.CanMake(call) <==> Permitted(ValidateDataTicket, t.Keys(), call)
  {
    if Permitted(ValidateDataTicket, t.Keys(), call) {
      match call.command
      case Validate(range) =>
        assert call == t.Pass(range);
      case Read(buf, offset) =>
        assert call == t.ReadAt(buf, offset);
    }
  }

  /** A ticket for the `fetch_placeholders` callback. */
  datatype FetchPlaceholders = FetchPlaceholders(connectionKey: ConnectionKey, transferKey: TransferKey) {

    static function New(connectionKey: ConnectionKey, transferKey: TransferKey): (t: FetchPlaceholders)
      ensures t.connectionKey == connectionKey && t.transferKey == transferKey
    {
      FetchPlaceholders(connectionKey, transferKey)
    }

    function Keys(): KeyPair {
      KeyPair(connectionKey, transferKey)
    }

    /** `pass_with_placeholder(placeholders)`: creates the entries, announcing their number. */
    function PassWithPlaceholder(placeholders: seq<PlaceholderFile>): (call: OsCall)
      ensures call.Execute? && call.keys == Keys()
      ensures call.command.CreatePlaceholders? && call.command.placeholders == placeholders
      ensures call.command.total == |placeholders|
    {
      Execute(Keys(), CreatePlaceholders(|placeholders|, placeholders))
    }

    ghost predicate CanMake(call: OsCall) {
      exists placeholders: seq<PlaceholderFile> :: call == PassWithPlaceholder(placeholders)
    }
  }

  lemma FetchPlaceholdersCapabilities(t: FetchPlaceholders, call: OsCall)
    ensures t.CanMake(call) <==> Permitted(FetchPlaceholdersTicket, t.Keys(), call)
  {
    if Permitted(FetchPlaceholdersTicket, t.Keys(), call) {
      assert call == t.PassWithPlaceholder(call.command.placeholders);
    }
  }

  /** A ticket for the `dehydrate` callback. */
  datatype Dehydrate = Dehydrate(connectionKey: ConnectionKey, transferKey: TransferKey) {

    static function New(connectionKey: ConnectionKey, transferKey: TransferKey): (t: Dehydrate)
      ensures t.connectionKey == connectionKey && t.transferKey == transferKey
    {
      Dehydrate.Dehydrate(connectionKey, transferKey)
    }

    function Keys(): KeyPair {
      KeyPair(connectionKey, transferKey)
    }

    /** `pass()`: confirms dehydration, with an empty blob. */
    function Pass(): (call: OsCall)
      ensures call == PassWithBlob([])
    {
      Execute(Keys(), Command.Dehydrate([]))
    }

    /** `pass_with_blob(blob)`: confirms dehydration and replaces the file's blob. */
    function PassWithBlob(blob: seq<uint8>): (call: OsCall)
      ensures call.Execute? && call.keys == Keys()
      ensures call.command.Dehydrate? && call.command.blob == blob
    {
      Execute(Keys(), Command.Dehydrate(blob))
    }

    ghost predicate CanMake(call: OsCall) {
      || call == Pass()
      || exists blob: seq<uint8> :: call == PassWithBlob(blob)
    }
  }

  lemma DehydrateCapabilities(t: Dehydrate, call: OsCall)
    ensures t.CanMake(call) <==> Permitted(DehydrateTicket, t.Keys(), call)
  {
    if Permitted(DehydrateTicket, t.Keys(), call) {
      assert call == t.PassWithBlob(call.command.blob);
    }
  }

  /** A ticket for the `delete` callback. */
  datatype Delete = Delete(connectionKey: ConnectionKey, transferKey: TransferKey) {

    static function New(connectionKey: ConnectionKey, transferKey: TransferKey): (t: Delete)
      ensures t.connectionKey == connectionKey && t.transferKey == transferKey
    {
      Delete.Delete(connectionKey, transferKey)
    }

    function Keys(): KeyPair {
      KeyPair(connectionKey, transferKey)
    }

    /** `pass()`: confirms the deletion; the command carries nothing. */
    function Pass(): (call: OsCall)
      ensures call.Execute? && call.keys == Keys() && call.command.Delete?
    {
      Execute(Keys(), Command.Delete)
    }
  }

  /** A ticket for the `rename` callback. */
  datatype Rename = Rename(connectionKey: ConnectionKey, transferKey: TransferKey) {

    static function New(connectionKey: ConnectionKey, transferKey: TransferKey): (t: Rename)
      ensures t.connectionKey == connectionKey && t.transferKey == transferKey
    {
      Rename.Rename(connectionKey, transferKey)
    }

    function Keys(): KeyPair {
      KeyPair(connectionKey, transferKey)
    }

    /** `pass()`: confirms the rename or move; the command carries nothing. */
    function Pass(): (call: OsCall)
      ensures call.Execute? && call.keys == Keys() && call.command.Rename?
    {
      Execute(Keys(), Command.Rename)
    }
  }

  /** Delete and rename tickets each have a single call, on their own key pair. */
  lemma DeleteAndRenameCapabilities(d: Delete, r: Rename, call: OsCall)
    ensures call == d.Pass() <==> Permitted(DeleteTicket, d.Keys(), call)
    ensures call == r.Pass() <==> Permitted(RenameTicket, r.Keys(), call)
  {
  }
}
