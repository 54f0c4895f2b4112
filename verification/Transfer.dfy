/** File records and the Push/Pull negotiation (UDTPFile, UDTPHeader, and the file lists of UDTP and UDTPPeer). */
module Transfer {
  import opened Protocol
  import opened ChunkStatus

  /** One flag for each place where the text of the code departs from its own comments.
      A flag that is false means the line as it stands. */
  datatype Repairs = Repairs(
    idBeforeUnpack: bool,      // Push/None: take the id before copying the header into the file
    keepOnPack: bool,          // Pull/None: packing the file info leaves the header's id and type alone
    copyOnConfirm: bool,       // Pull/Confirm: the file takes id and type from the header
    approveOrigin: bool,       // Push/Approved: the file is marked as approved before it is started
    activeBeforeThreads: bool) // the file is active before its first threads are added

  const AS_WRITTEN := Repairs(false, false, false, false, false)

  /** What the file system answers for the path of a header. */
  datatype Disk = Disk(found: bool, chunks: nat, size: nat)

  /** The id and transfer type that a UDTPFile happens to hold before anything assigns them. */
  datatype Unset = Unset(id: nat, kind: TransferType)

  /** How many file threads a file starts with, and the most it may have. */
  datatype Setup = Setup(startingThreads: nat, maxThreads: nat)

  /** `exchange` stands for the path, which a header keeps through all its hops; no branch reads it. */
  datatype Header = Header(exchange: nat, kind: TransferType, code: ResponseCode, id: nat, chunks: nat, size: nat)

  datatype File = File(exchange: nat, id: nat, kind: TransferType, approver: bool,
                       approvedHeader: bool, active: bool, chunks: nat, size: nat)
  {
    function Direction(): ThreadType { GetThreadType(approver, kind) }
    predicate Runs(t: ThreadType) { active && Direction() == t }
  }

  /** What one endpoint keeps: its file id counter and the list of all its files. */
  datatype Site = Site(fileIDCount: nat, files: seq<File>)

  datatype Outcome = Outcome(site: Site, header: Header, reply: bool)

  function GetThreadType(approver: bool, kind: TransferType): (t: ThreadType)
    ensures t == Outgoing <==> (approver <==> kind == Pull)
  {
    match (approver, kind)
    case (true, Pull) => Outgoing
    case (false, Pull) => Incoming
    case (true, Push) => Incoming
    case (false, Push) => Outgoing
  }

  /** The counter is an unsigned int but the id that is handed out has 16 bits. */
  function FileID(count: nat): nat { count % 0x1_0000 }

  /** begin_file_processing, as far as the record is concerned. */
  function Started(f: File): File { f.(active := f.approvedHeader || f.active) }

  function NewFile(exchange: nat, id: nat, kind: TransferType, approver: bool, approved: bool, chunks: nat, size: nat): File {
    Started(File(exchange, id, kind, approver, approved, false, chunks, size))
  }

  function Respond(fix: Repairs, site: Site, h: Header, disk: Disk, unset: Unset): Outcome {
    match h.kind
    case Pull => RespondPull(fix, site, h, disk, unset)
    case Push => RespondPush(fix, site, h, disk)
  }

  function RespondPull(fix: Repairs, site: Site, h: Header, disk: Disk, unset: Unset): Outcome {
    match h.code
    case ResponseNone =>
      if !disk.found then Outcome(site, h.(code := ResponseFileNotFound), true)
      else
        var count := if h.id == 0 then site.fileIDCount + 1 else site.fileIDCount;
        var id := if h.id == 0 then FileID(count) else h.id;
        var packed := if fix.keepOnPack then h.(id := FileID(id)) else h.(id := FileID(unset.id), kind := unset.kind);
        Outcome(site.(fileIDCount := count),
                packed.(chunks := disk.chunks, size := disk.size, code := ResponseApproved), true)
    case ResponseApproved =>
      var f := NewFile(h.exchange, h.id, h.kind, false, true, h.chunks, h.size);
      Outcome(site.(files := site.files + [f]), h.(code := ResponseConfirm), true)
    case ResponseConfirm =>
      var f := if fix.copyOnConfirm then NewFile(h.exchange, h.id, h.kind, true, true, disk.chunks, disk.size)
               else NewFile(h.exchange, unset.id, unset.kind, true, true, disk.chunks, disk.size);
      Outcome(site.(files := site.files + [f]), h, false)
    case _ => Outcome(site, h, false)
  }

  function RespondPush(fix: Repairs, site: Site, h: Header, disk: Disk): Outcome {
    match h.code
    case ResponseNone =>
      if disk.found then Outcome(site, h.(code := ResponseFileExistsAlready), true)
      else
        var count := if h.id == 0 then site.fileIDCount + 1 else site.fileIDCount;
        var id := if h.id == 0 then FileID(count) else h.id;
        var f := NewFile(h.exchange, if fix.idBeforeUnpack then id else h.id, h.kind, true, true, h.chunks, h.size);
        Outcome(Site(count, site.files + [f]), h.(id := id, code := ResponseApproved), true)
    case ResponseApproved =>
      var f := NewFile(h.exchange, h.id, h.kind, false, fix.approveOrigin, h.chunks, h.size);
      Outcome(site.(files := site.files + [f]), h, false)
    case _ => Outcome(site, h, false)
  }

  /** As written, the responder's own record of a push carries the id it answers with exactly when the
      request already carried an id: a PEER's request, which carries 0, leaves the two apart unless the
      counter has wrapped to a multiple of 65536. */
  lemma PushRecordKeepsRequestID(site: Site, h: Header, disk: Disk, unset: Unset)
    requires h.kind == Push && h.code == ResponseNone && !disk.found
    ensures var out := Respond(AS_WRITTEN, site, h, disk, unset);
      && |out.site.files| == |site.files| + 1
      && (out.site.files[|site.files|].id == out.header.id
          <==> h.id != 0 || (site.fileIDCount + 1) % 0x1_0000 == 0)
  {
  }

  /** Two allocations give the same id exactly when they are a multiple of 65536 apart, so the first
      65535 are distinct and nonzero and the one after them is 0. */
  lemma FileIDsRepeatAtWrap(i: nat, j: nat)
    requires 1 <= i < j
    ensures FileID(i) == FileID(j) <==> (j - i) % 0x1_0000 == 0
    ensures j <= 0xFFFF ==> FileID(i) != FileID(j) && FileID(i) != 0 && FileID(j) != 0
    ensures FileID(0x1_0000) == 0
  {
    assert j - i == (j / 0x1_0000 - i / 0x1_0000) * 0x1_0000 + (FileID(j) - FileID(i));
  }

  /** Adding threads one by one stops at the most there may be, and takes none away. */
  function ThreadsAfter(threads: nat, adds: nat, most: nat): (r: nat)
    ensures threads <= r && (r <= threads || r <= most)
    ensures threads + adds <= most ==> r == threads + adds
    ensures threads <= most <= threads + adds ==> r == most
  {
    if threads >= most then threads else if threads + adds <= most then threads + adds else most
  }

  class UDTPFile {
    const exchange: nat
    var fileID: nat
    var transferType: TransferType
    var approver: bool
    var hasApprovedHeader: bool
    var active: bool
    var critError: bool
    var numberOfChunks: nat
    var sizeOfFile: nat
    var chunksCompleted: seq<bv8>
    var chunksCompletedCount: nat
    var incomingChunks: seq<nat>
    var semFileThread: nat
    var fileThreads: nat

    ghost function Value(): File
      reads this
    {
      File(exchange, fileID, transferType, approver, hasApprovedHeader, active, numberOfChunks, sizeOfFile)
    }

    ghost function Chunks(): Progress
      reads this
    {
      Progress(chunksCompleted, chunksCompletedCount)
    }

    /** Nothing has been done with the file yet. */
    ghost predicate Idle()
      reads this
    {
      && !active && !critError && chunksCompleted == [] && chunksCompletedCount == 0
      && incomingChunks == [] && semFileThread == 0 && fileThreads == 0
    }

    /** The file has just been begun, if it is active. */
    ghost predicate Begun(fix: Repairs, setup: Setup)
      reads this
    {
      if !active then Idle() else
        && !critError && |chunksCompleted| == numberOfChunks && chunksCompletedCount == 0
        && (forall i, code :: 0 <= i < numberOfChunks ==> !Has(chunksCompleted, i, code))
        && semFileThread == (if Value().Direction() == Outgoing then numberOfChunks else 0)
        && fileThreads == (if fix.activeBeforeThreads then ThreadsAfter(0, setup.startingThreads, setup.maxThreads) else 0)
        && incomingChunks == []
    }

    constructor (exchange: nat, unset: Unset)
      ensures Idle()
      ensures Value() == File(exchange, unset.id, unset.kind, false, false, false, 0, 0)
      ensures !critError && incomingChunks == [] && semFileThread == 0 && fileThreads == 0
      ensures Chunks() == Progress([], 0)
    {
      this.exchange := exchange;
      fileID, transferType := unset.id, unset.kind;
      approver, hasApprovedHeader, active, critError := false, false, false, false;
      numberOfChunks, sizeOfFile := 0, 0;
      chunksCompleted, chunksCompletedCount := [], 0;
      incomingChunks, semFileThread, fileThreads := [], 0, 0;
    }

    method RetrieveInfoFromLocalFile(disk: Disk)
      modifies `numberOfChunks, `sizeOfFile
      ensures Value() == old(Value()).(chunks := disk.chunks, size := disk.size)
    {
      sizeOfFile := disk.size;
      numberOfChunks := disk.chunks;
    }

    method UnpackFromHeader(h: UDTPHeader)
      modifies `numberOfChunks, `sizeOfFile, `fileID, `transferType
      ensures Value() == old(Value()).(chunks := h.numberOfChunks, size := h.sizeOfFile, id := h.fileID, kind := h.transferType)
    {
      numberOfChunks := h.numberOfChunks;
      sizeOfFile := h.sizeOfFile;
      fileID := h.fileID;
      transferType := h.transferType;
    }

    method PackToHeader(h: UDTPHeader)
      modifies h
      ensures h.Value() == old(h.Value()).(chunks := numberOfChunks, size := sizeOfFile, id := FileID(fileID), kind := transferType)
    {
      h.numberOfChunks := numberOfChunks;
      h.sizeOfFile := sizeOfFile;
      h.fileID := FileID(fileID);
      h.transferType := transferType;
    }

    method AddFileThread(setup: Setup)
      modifies `fileThreads
      ensures fileThreads == if active then ThreadsAfter(old(fileThreads), 1, setup.maxThreads) else old(fileThreads)
    {
      if active && fileThreads < setup.maxThreads {
        fileThreads := fileThreads + 1;
      }
    }

    method EmptyAllChunkStatus()
      modifies `chunksCompleted, `chunksCompletedCount
      ensures |chunksCompleted| == numberOfChunks && chunksCompletedCount == 0 == DoneCount(chunksCompleted)
      ensures forall i, code :: 0 <= i < numberOfChunks ==> !Has(chunksCompleted, i, code)
    {
      chunksCompletedCount := 0;
      if |chunksCompleted| != 0 {
        chunksCompleted := [];
      }
      for i := 0 to numberOfChunks
        invariant |chunksCompleted| == i && chunksCompletedCount == 0
        invariant forall k :: 0 <= k < i ==> chunksCompleted[k] == 0
      {
        chunksCompleted := chunksCompleted + [0];
      }
      ClearBytes(chunksCompleted);
    }

    /** Fails when the header is not approved, on an error, or when sem_init fails, and then changes nothing
        (`semOk` is the outcome of sem_init); otherwise the file is active, its bytes
        are clear, its semaphore is loaded by direction, and it has its first threads. As written the
        file is not active yet when the threads are added, so a fresh file gets none. */
    method BeginFileProcessing(fix: Repairs, setup: Setup, semOk: bool) returns (ok: bool)
      modifies this
      ensures ok <==> old(hasApprovedHeader && !critError) && semOk
      ensures !ok ==> unchanged(this)
      ensures Value() == if ok then old(Value()).(active := true) else old(Value())
      ensures ok ==> |chunksCompleted| == numberOfChunks && chunksCompletedCount == 0
      ensures ok ==> forall i, code :: 0 <= i < numberOfChunks ==> !Has(chunksCompleted, i, code)
      ensures ok ==> semFileThread == if Value().Direction() == Outgoing then numberOfChunks else 0
      ensures ok ==> fileThreads == if fix.activeBeforeThreads || old(active)
                                    then ThreadsAfter(old(fileThreads), setup.startingThreads, setup.maxThreads)
                                    else old(fileThreads)
      ensures incomingChunks == old(incomingChunks) && critError == old(critError)
    {
      hide Has, ThreadsAfter, DoneCount;
      if !hasApprovedHeader { return false; }
      if critError { return false; }
      var threadType := GetThreadType(approver, transferType);
      if !semOk { return false; }
      if threadType == Outgoing { semFileThread := numberOfChunks; }
      if threadType == Incoming { semFileThread := 0; }
      EmptyAllChunkStatus();
      if fix.activeBeforeThreads { active := true; }
      var first, wasActive := fileThreads, active;
      for i := 0 to setup.startingThreads
        modifies `fileThreads
        invariant fileThreads == if wasActive then ThreadsAfter(first, i, setup.maxThreads) else first
      {
        AddFileThread(setup);
      }
      active := true;
      return true;
    }

    method AddIncomingChunk(chunk: nat) returns (ok: bool)
      modifies `incomingChunks, `semFileThread
      ensures ok <==> active
      ensures incomingChunks == old(incomingChunks) + if ok then [chunk] else []
      ensures semFileThread == old(semFileThread) + if ok then 1 else 0
    {
      if active {
        incomingChunks := incomingChunks + [chunk];
        semFileThread := semFileThread + 1;
        return true;
      }
      return false;
    }

    method SetChunkStatus(chunkID: nat, code: ChunkCode)
      requires chunkID < |chunksCompleted|
      modifies `chunksCompleted, `chunksCompletedCount
      ensures Chunks() == SetStatus(old(Chunks()), chunkID, code)
    {
      chunksCompleted := chunksCompleted[chunkID := With(chunksCompleted[chunkID], code)];
      if code == Done { chunksCompletedCount := chunksCompletedCount + 1; }
    }

    method SetAllEmptyChunksToWhine() returns (r: int)
      requires |chunksCompleted| == numberOfChunks
      modifies `chunksCompleted, `chunksCompletedCount
      ensures r == -1
      ensures Chunks() == old(Chunks()).(status := WhineUpTo(old(chunksCompleted), numberOfChunks))
    {
      for i := 0 to numberOfChunks
        invariant |chunksCompleted| == numberOfChunks
        invariant Chunks() == old(Chunks()).(status := WhineUpTo(old(chunksCompleted), i))
      {
        if !Has(chunksCompleted, i, Done) && !Has(chunksCompleted, i, Whine) {
          SetChunkStatus(i, Whine);
        }
      }
      return -1;
    }

    method GetChunksWhine() returns (r: int)
      requires |chunksCompleted| == numberOfChunks
      ensures r == LeastWhiningFrom(chunksCompleted, 0)
    {
      for i := 0 to numberOfChunks
        invariant LeastWhiningFrom(chunksCompleted, 0) == LeastWhiningFrom(chunksCompleted, i)
      {
        if Has(chunksCompleted, i, Whine) && !Has(chunksCompleted, i, Done) {
          return i;
        }
      }
      return -1;
    }

    /** The least chunk that is not DONE, or -1, and then the file is no longer active. */
    method VerifyCompletion() returns (r: int)
      requires |chunksCompleted| == numberOfChunks
      modifies `active
      ensures r == LeastMissingFrom(chunksCompleted, 0)
      ensures active == (old(active) && r != -1)
    {
      for i := 0 to numberOfChunks
        invariant LeastMissingFrom(chunksCompleted, 0) == LeastMissingFrom(chunksCompleted, i)
        invariant active == old(active)
      {
        if !Has(chunksCompleted, i, Done) {
          return i;
        }
      }
      active := false;
      return -1;
    }
  }

  ghost function Values(files: seq<UDTPFile>): seq<File>
    reads files
  {
    if files == [] then [] else Values(files[..|files| - 1]) + [files[|files| - 1].Value()]
  }

  /** The first index at which an id stands, or -1. */
  function IndexOf(ids: seq<nat>, id: nat): (r: int)
    ensures -1 <= r < |ids|
    ensures r >= 0 ==> ids[r] == id
    ensures forall i :: 0 <= i < (if r == -1 then |ids| else r) ==> ids[i] != id
  {
    if ids == [] then -1
    else
      var r := IndexOf(ids[..|ids| - 1], id);
      if r >= 0 then r else if ids[|ids| - 1] == id then |ids| - 1 else -1
  }

  ghost function IDs(files: seq<UDTPFile>): (ids: seq<nat>)
    reads files
    ensures |ids| == |files|
    ensures forall i :: 0 <= i < |files| ==> ids[i] == files[i].fileID
  {
    if files == [] then [] else IDs(files[..|files| - 1]) + [files[|files| - 1].fileID]
  }

  class UDTP {
    var fileIDCount: nat
    var overallFiles: seq<UDTPFile>

    ghost function Value(): Site
      reads this, overallFiles
    {
      Site(fileIDCount, Values(overallFiles))
    }

    method GetNextFileID() returns (id: nat)
      modifies `fileIDCount
      ensures fileIDCount == old(fileIDCount) + 1
      ensures id == FileID(fileIDCount)
    {
      fileIDCount := fileIDCount + 1;
      id := FileID(fileIDCount);
    }

    method AddFileToList(file: UDTPFile)
      modifies `overallFiles
      ensures overallFiles == old(overallFiles) + [file]
    {
      overallFiles := overallFiles + [file];
    }

    method GetFileWithID(id: nat) returns (file: UDTPFile?)
      ensures var k := IndexOf(IDs(overallFiles), id);
        if k == -1 then file == null else file == overallFiles[k]
    {
      for i := 0 to |overallFiles|
        invariant forall j :: 0 <= j < i ==> overallFiles[j].fileID != id
      {
        if overallFiles[i].fileID == id {
          return overallFiles[i];
        }
      }
      return null;
    }
  }

  class UDTPPeer {
    var activeFiles: seq<UDTPFile>
    var selfOverallFiles: seq<UDTPFile>

    /** A file that cannot be begun joins the lists as well. */
    method StartFile(fix: Repairs, setup: Setup, file: UDTPFile, semOk: bool)
      modifies this, file
      ensures activeFiles == old(activeFiles) + [file]
      ensures selfOverallFiles == old(selfOverallFiles) + [file]
      ensures file.Value() == if semOk && !old(file.critError) then Started(old(file.Value())) else old(file.Value())
      ensures !old(file.hasApprovedHeader) || old(file.critError) || !semOk ==> unchanged(file)
      ensures old(file.Idle()) ==> file.Begun(fix, setup)
    {
      activeFiles := activeFiles + [file];
      selfOverallFiles := selfOverallFiles + [file];
      var ok := file.BeginFileProcessing(fix, setup, semOk);
    }

    method FindOwn(id: nat) returns (k: int)
      ensures k == IndexOf(IDs(selfOverallFiles), id)
    {
      for i := 0 to |selfOverallFiles|
        invariant forall j :: 0 <= j < i ==> selfOverallFiles[j].fileID != id
      {
        if selfOverallFiles[i].fileID == id {
          return i;
        }
      }
      return -1;
    }

    /** Own list first, then the list of the whole endpoint. With `caching` a file found only there is
        copied into the own list, which is what the unreachable line after the return meant to do. */
    method SearchFileByID(caching: bool, udtp: UDTP, id: nat) returns (file: UDTPFile?)
      modifies `selfOverallFiles
      ensures var k := old(IndexOf(IDs(selfOverallFiles), id));
        var g := old(IndexOf(IDs(udtp.overallFiles), id));
        && file == (if k >= 0 then old(selfOverallFiles)[k] else if g >= 0 then udtp.overallFiles[g] else null)
        && selfOverallFiles == old(selfOverallFiles)
             + if caching && k == -1 && g >= 0 then [udtp.overallFiles[g]] else []
    {
      hide IDs, IndexOf;
      var k := FindOwn(id);
      if k >= 0 {
        return selfOverallFiles[k];
      }
      file := udtp.GetFileWithID(id);
      if file != null && caching {
        selfOverallFiles := selfOverallFiles + [file];
      }
    }
  }

  class UDTPHeader {
    const exchange: nat
    var transferType: TransferType
    var responseCode: ResponseCode
    var fileID: nat
    var numberOfChunks: nat
    var sizeOfFile: nat

    ghost function Value(): Header
      reads this
    {
      Header(exchange, transferType, responseCode, fileID, numberOfChunks, sizeOfFile)
    }

    constructor (h: Header)
      ensures Value() == h
    {
      exchange, transferType, responseCode := h.exchange, h.kind, h.code;
      fileID, numberOfChunks, sizeOfFile := h.id, h.chunks, h.size;
    }

    /** The endpoint, this header and the answer change as the function Respond says, and any file that is
        added to the endpoint's list is added to the peer's own lists in the same order. */
    method RespondTo(fix: Repairs, setup: Setup, udtp: UDTP, peer: UDTPPeer, disk: Disk, unset: Unset) returns (reply: bool)
      modifies this, udtp, peer
      ensures Outcome(udtp.Value(), Value(), reply) == Respond(fix, old(udtp.Value()), old(Value()), disk, unset)
      ensures AddedAlike(fix, setup, udtp, peer)
    {
      if transferType == Pull {
        if responseCode == ResponseNone {
          reply := PullNone(fix, udtp, disk, unset);
          return;
        }
        if responseCode == ResponseFileNotFound { return false; }
        if responseCode == ResponseApproved {
          reply := PullApproved(fix, setup, udtp, peer, disk, unset);
          return;
        }
        if responseCode == ResponseConfirm {
          reply := PullConfirm(fix, setup, udtp, peer, disk, unset);
          return;
        }
      }
      if transferType == Push {
        if responseCode == ResponseNone {
          reply := PushNone(fix, setup, udtp, peer, disk, unset);
          return;
        }
        if responseCode == ResponseFileExistsAlready { return false; }
        if responseCode == ResponseApproved {
          reply := PushApproved(fix, setup, udtp, peer, disk, unset);
          return;
        }
      }
      return false;
    }

    method PullNone(fix: Repairs, udtp: UDTP, disk: Disk, unset: Unset) returns (reply: bool)
      requires transferType == Pull && responseCode == ResponseNone
      modifies this, udtp`fileIDCount
      ensures Outcome(udtp.Value(), Value(), reply) == RespondPull(fix, old(udtp.Value()), old(Value()), disk, unset)
    {
      if !disk.found {
        responseCode := ResponseFileNotFound;
        return true;
      } else {
        if fileID == 0 { fileID := udtp.GetNextFileID(); }
        PackLocalFile(fix, disk, unset);
        responseCode := ResponseApproved;
        return true;
      }
    }

    /** As written the local file's own id and type, which nothing has set, end up in the header. */
    method PackLocalFile(fix: Repairs, disk: Disk, unset: Unset)
      modifies this
      ensures Value() == old(Value()).(chunks := disk.chunks, size := disk.size,
        id := FileID(if fix.keepOnPack then old(fileID) else unset.id),
        kind := if fix.keepOnPack then old(transferType) else unset.kind)
    {
      var processingFile := new UDTPFile(exchange, unset);
      processingFile.RetrieveInfoFromLocalFile(disk);
      if fix.keepOnPack { processingFile.fileID, processingFile.transferType := fileID, transferType; }
      processingFile.PackToHeader(this);
    }

    method PullApproved(fix: Repairs, setup: Setup, udtp: UDTP, peer: UDTPPeer, disk: Disk, unset: Unset) returns (reply: bool)
      requires transferType == Pull && responseCode == ResponseApproved
      modifies this, udtp`overallFiles, peer
      ensures Outcome(udtp.Value(), Value(), reply) == RespondPull(fix, old(udtp.Value()), old(Value()), disk, unset)
      ensures AddedAlike(fix, setup, udtp, peer)
    {
      hide Values;
      var processingFile := FileFromHeader(unset, false, true);
      AddAndStart(fix, setup, udtp, peer, processingFile);
      responseCode := ResponseConfirm;
      return true;
    }

    method PullConfirm(fix: Repairs, setup: Setup, udtp: UDTP, peer: UDTPPeer, disk: Disk, unset: Unset) returns (reply: bool)
      requires transferType == Pull && responseCode == ResponseConfirm
      modifies udtp`overallFiles, peer
      ensures Outcome(udtp.Value(), Value(), reply) == RespondPull(fix, old(udtp.Value()), Value(), disk, unset)
      ensures AddedAlike(fix, setup, udtp, peer)
    {
      hide Values, Has, ThreadsAfter;
      var processingFile := ConfirmedFile(fix, disk, unset);
      AddAndStart(fix, setup, udtp, peer, processingFile);
      return false;
    }

    /** As written the new file takes its numbers from the local file and nothing from this header. */
    method ConfirmedFile(fix: Repairs, disk: Disk, unset: Unset) returns (file: UDTPFile)
      ensures fresh(file) && file.Idle()
      ensures file.Value() == File(exchange, if fix.copyOnConfirm then fileID else unset.id,
        if fix.copyOnConfirm then transferType else unset.kind, true, true, false, disk.chunks, disk.size)
    {
      file := new UDTPFile(exchange, unset);
      if fix.copyOnConfirm { file.UnpackFromHeader(this); }
      file.RetrieveInfoFromLocalFile(disk);
      file.hasApprovedHeader := true;
      file.approver := true;
    }

    method PushNone(fix: Repairs, setup: Setup, udtp: UDTP, peer: UDTPPeer, disk: Disk, unset: Unset) returns (reply: bool)
      requires transferType == Push && responseCode == ResponseNone
      modifies this, udtp, peer
      ensures Outcome(udtp.Value(), Value(), reply) == RespondPush(fix, old(udtp.Value()), old(Value()), disk)
      ensures AddedAlike(fix, setup, udtp, peer)
    {
      hide Values;
      if disk.found {
        responseCode := ResponseFileExistsAlready;
        return true;
      } else {
        var processingFile := PrepareForPush(fix, udtp, unset);
        AddAndStart(fix, setup, udtp, peer, processingFile);
        responseCode := ResponseApproved;
        return true;
      }
    }

    method PrepareForPush(fix: Repairs, udtp: UDTP, unset: Unset) returns (file: UDTPFile)
      modifies `fileID, udtp`fileIDCount
      ensures fresh(file) && file.Idle()
      ensures udtp.fileIDCount == old(if fileID == 0 then udtp.fileIDCount + 1 else udtp.fileIDCount)
      ensures fileID == if old(fileID) == 0 then FileID(udtp.fileIDCount) else old(fileID)
      ensures file.Value() == File(exchange, if fix.idBeforeUnpack then fileID else old(fileID), transferType,
                                   true, true, false, numberOfChunks, sizeOfFile)
    {
      if !fix.idBeforeUnpack { file := FileFromHeader(unset, true, true); }
      if fileID == 0 { fileID := udtp.GetNextFileID(); }
      if fix.idBeforeUnpack { file := FileFromHeader(unset, true, true); }
    }

    method PushApproved(fix: Repairs, setup: Setup, udtp: UDTP, peer: UDTPPeer, disk: Disk, unset: Unset) returns (reply: bool)
      requires transferType == Push && responseCode == ResponseApproved
      modifies udtp`overallFiles, peer
      ensures Outcome(udtp.Value(), Value(), reply) == RespondPush(fix, old(udtp.Value()), Value(), disk)
      ensures AddedAlike(fix, setup, udtp, peer)
    {
      hide Values;
      var processingFile := FileFromHeader(unset, false, fix.approveOrigin);
      AddAndStart(fix, setup, udtp, peer, processingFile);
      return false;
    }

    /** A new file that takes its information from this header. */
    method FileFromHeader(unset: Unset, approver: bool, approved: bool) returns (file: UDTPFile)
      ensures fresh(file) && file.Idle()
      ensures file.Value() == File(exchange, fileID, transferType, approver, approved, false, numberOfChunks, sizeOfFile)
    {
      file := new UDTPFile(exchange, unset);
      file.UnpackFromHeader(this);
      file.hasApprovedHeader := approved;
      file.approver := approver;
    }

    static method AddAndStart(fix: Repairs, setup: Setup, udtp: UDTP, peer: UDTPPeer, file: UDTPFile)
      requires file.Idle() && file !in udtp.overallFiles
      modifies udtp`overallFiles, peer, file
      ensures udtp.overallFiles == old(udtp.overallFiles) + [file]
      ensures udtp.Value() == old(udtp.Value()).(files := old(udtp.Value().files) + [Started(old(file.Value()))])
      ensures AddedAlike(fix, setup, udtp, peer)
    {
      udtp.AddFileToList(file);
      peer.StartFile(fix, setup, file, true);
      assert udtp.overallFiles[..|udtp.overallFiles| - 1] == old(udtp.overallFiles);
    }
  }

  /** The endpoint's list grew at its end, the peer's two lists grew by the same files, and these have just been
      begun, if they were approved. */
  twostate predicate AddedAlike(fix: Repairs, setup: Setup, udtp: UDTP, peer: UDTPPeer)
    reads udtp, peer, udtp.overallFiles
  {
    && old(udtp.overallFiles) <= udtp.overallFiles
    && var added := udtp.overallFiles[|old(udtp.overallFiles)|..];
    && peer.selfOverallFiles == old(peer.selfOverallFiles) + added
    && peer.activeFiles == old(peer.activeFiles) + added
    && forall f :: f in added ==> f.Begun(fix, setup)
  }
}
