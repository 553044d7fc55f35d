/*
 * The storage layer shared by the two servers: the in-memory job table with
 * optional Cloud Storage write-through, the credit balances, the free-pass
 * ledger and the list of free-pass users.
 */
module Storage {
  import opened Js

  /** The DATA_STORAGE_TYPE setting: 'memory' (the default), 'cloud-storage',
      or anything else, which means local files. */
  datatype StorageType = Memory | CloudStorage | FileStorage

  /** One entry of the free-pass user list. */
  datatype FreePassUser = FreePassUser(
    firstName: string, lastName: string, email: string,
    jobId: string, userId: string, timestamp: string)

  /** `JSON.parse(JSON.stringify(r))` on a flat record: properties holding
      undefined are dropped, every other property survives. */
  function JsonRoundTrip(r: Record): (q: Record)
    ensures forall k :: k in q <==> k in r && r[k] != Undefined
    ensures forall k :: k in q ==> q[k] == r[k]
  {
    map k | k in r && r[k] != Undefined :: r[k]
  }

  /** Reading a property after the JSON round trip gives what it gave before. */
  lemma JsonRoundTripKeepsFields(r: Record, k: string)
    ensures Field(JsonRoundTrip(r), k) == Field(r, k)
  {
  }

  class Store {
    const storageType: StorageType
    /** jobDataStorage: the in-memory job table. */
    var jobs: map<string, Record>
    /** The `jobs/<jobId>.json` objects in the bucket. */
    var cloudJobs: map<string, Record>
    /** userCreditsStorage. */
    var credits: map<string, int>
    /** freePassUsage. */
    var freePassUsage: map<string, JsValue>
    /** The in-memory free-pass user list. */
    var memoryUsers: seq<FreePassUser>
    /** The free-pass user list kept in the local data file. */
    var fileUsers: seq<FreePassUser>

    constructor(storageType: StorageType)
      ensures this.storageType == storageType
      ensures jobs == map[] && cloudJobs == map[] && credits == map[]
      ensures freePassUsage == map[] && memoryUsers == [] && fileUsers == []
    {
      this.storageType := storageType;
      jobs := map[];
      cloudJobs := map[];
      credits := map[];
      freePassUsage := map[];
      memoryUsers := [];
      fileUsers := [];
    }

    // -------------------------------------------------------------------------
    // Job records
    // -------------------------------------------------------------------------

    /** What `getJobData` finds: the memory table first, then, in cloud mode,
        the bucket when reading it succeeds (`loadOk`). */
    function Resolve(jobId: string, loadOk: bool): (r: Option<Record>)
      reads this
      ensures jobId in jobs ==> r == Some(jobs[jobId])
      ensures r.None? <==> jobId !in jobs && !(storageType == CloudStorage && loadOk && jobId in cloudJobs)
      ensures jobId !in jobs && r.Some? ==> r.value == cloudJobs[jobId]
    {
      if jobId in jobs then Some(jobs[jobId])
      else if storageType == CloudStorage && loadOk && jobId in cloudJobs then Some(cloudJobs[jobId])
      else None
    }

    /** `setJobData`: always writes memory; in cloud mode also writes the JSON
        form to the bucket unless the upload fails (`saveOk`), which is swallowed. */
    method SetJobData(jobId: string, data: Record, saveOk: bool)
      modifies this`jobs, this`cloudJobs
      ensures jobs == old(jobs)[jobId := data]
      ensures cloudJobs == if storageType == CloudStorage && saveOk
                           then old(cloudJobs)[jobId := JsonRoundTrip(data)]
                           else old(cloudJobs)
    {
      jobs := jobs[jobId := data];
      if storageType == CloudStorage && saveOk {
        cloudJobs := cloudJobs[jobId := JsonRoundTrip(data)];
      }
    }

    /** `getJobData`: a record found only in the bucket is cached in memory. */
    method GetJobData(jobId: string, loadOk: bool) returns (r: Option<Record>)
      modifies this`jobs
      ensures r == old(Resolve(jobId, loadOk))
      ensures r.Some? ==> jobs == old(jobs)[jobId := r.value]
      ensures r.None? ==> jobs == old(jobs)
    {
      if jobId in jobs {
        r := Some(jobs[jobId]);
      } else if storageType == CloudStorage && loadOk && jobId in cloudJobs {
        r := Some(cloudJobs[jobId]);
        jobs := jobs[jobId := cloudJobs[jobId]];
      } else {
        r := None;
      }
    }

    /** `setJobData` followed by `getJobData` on the same job: the record
        just written comes back from memory, whatever the bucket holds. */
    method SetThenGet(jobId: string, data: Record, saveOk: bool, loadOk: bool) returns (r: Option<Record>)
      modifies this`jobs, this`cloudJobs
      ensures r == Some(data)
      ensures jobs == old(jobs)[jobId := data]
    {
      SetJobData(jobId, data, saveOk);
      r := GetJobData(jobId, loadOk);
    }

    // -------------------------------------------------------------------------
    // Credits
    // -------------------------------------------------------------------------

    /** Every stored balance is non-negative. */
    ghost predicate CreditsNonNegative()
      reads this
    {
      forall u :: u in credits ==> credits[u] >= 0
    }

    /** `getUserCredits`: an unknown user has no credits. */
    function GetUserCredits(userId: string): (n: int)
      reads this
      ensures userId !in credits ==> n == 0
      ensures userId in credits ==> n == credits[userId]
      ensures CreditsNonNegative() ==> n >= 0
    {
      if userId in credits then credits[userId] else 0
    }

    /** `addUserCredits`: returns the new balance. */
    method AddUserCredits(userId: string, amount: int) returns (total: int)
      modifies this`credits
      ensures total == old(GetUserCredits(userId)) + amount
      ensures credits == old(credits)[userId := total]
      ensures old(CreditsNonNegative()) && amount >= 0 ==> CreditsNonNegative()
    {
      total := GetUserCredits(userId) + amount;
      credits := credits[userId := total];
    }

    /** `deductUserCredit`: succeeds exactly when the balance is positive,
        and then lowers it by one; a failed deduction changes nothing. */
    method DeductUserCredit(userId: string) returns (ok: bool)
      modifies this`credits
      ensures ok <==> old(GetUserCredits(userId)) > 0
      ensures ok ==> credits == old(credits)[userId := old(GetUserCredits(userId)) - 1]
      ensures !ok ==> credits == old(credits)
      ensures old(CreditsNonNegative()) ==> CreditsNonNegative()
    {
      var current := GetUserCredits(userId);
      if current > 0 {
        credits := credits[userId := current - 1];
        ok := true;
      } else {
        ok := false;
      }
    }

    // -------------------------------------------------------------------------
    // Free passes
    // -------------------------------------------------------------------------

    /** `hasUsedFreePass`: only a stored `true` counts. */
    function HasUsedFreePass(userId: string): (used: bool)
      reads this
      ensures used <==> userId in freePassUsage && freePassUsage[userId] == Bool(true)
    {
      Field(freePassUsage, userId) == Bool(true)
    }

    /** `markFreePassUsed`: afterwards the user has used the free pass; it returns nothing. */
    method MarkFreePassUsed(userId: string)
      modifies this`freePassUsage
      ensures freePassUsage == old(freePassUsage)[userId := Bool(true)]
      ensures HasUsedFreePass(userId)
      ensures forall u :: u != userId ==> HasUsedFreePass(u) == old(HasUsedFreePass(u))
    {
      freePassUsage := freePassUsage[userId := Bool(true)];
    }

    /** `saveFreePassUserInfo`. Memory mode appends to the in-memory list.
        Cloud mode writes to the bucket and reports whether that write
        succeeded (`cloudOk`). File mode re-reads the list file (a file that
        cannot be read is treated as an empty list), appends, and writes it
        back unless the write fails (`fileWriteOk`); that failure is swallowed. */
    method SaveFreePassUserInfo(user: FreePassUser, cloudOk: bool, fileReadOk: bool, fileWriteOk: bool)
      returns (saved: bool)
      modifies this`memoryUsers, this`fileUsers
      ensures storageType == Memory ==>
        saved && memoryUsers == old(memoryUsers) + [user] && fileUsers == old(fileUsers)
      ensures storageType == CloudStorage ==>
        saved == cloudOk && memoryUsers == old(memoryUsers) && fileUsers == old(fileUsers)
      ensures storageType == FileStorage ==>
        saved && memoryUsers == old(memoryUsers) &&
        fileUsers == (if !fileWriteOk then old(fileUsers)
                      else if fileReadOk then old(fileUsers) + [user]
                      else [user])
    {
      match storageType
      case Memory =>
        memoryUsers := memoryUsers + [user];
        saved := true;
      case CloudStorage =>
        saved := cloudOk;
      case FileStorage =>
        var users := if fileReadOk then fileUsers else [];
        users := users + [user];
        if fileWriteOk {
          fileUsers := users;
        }
        saved := true;
    }

    /** `getFreePassUsers`: the memory list in memory mode, otherwise the
        local file (an unreadable file gives the empty list). */
    function FreePassUsers(fileReadOk: bool): (users: seq<FreePassUser>)
      reads this
      ensures storageType == Memory ==> users == memoryUsers
      ensures storageType != Memory && fileReadOk ==> users == fileUsers
      ensures storageType != Memory && !fileReadOk ==> users == []
    {
      if storageType == Memory then memoryUsers
      else if fileReadOk then fileUsers
      else []
    }

    /** `getFreePassUserCount`: the length of the list `getFreePassUsers` returns. */
    function FreePassUserCount(fileReadOk: bool): (n: nat)
      reads this
      ensures n == |FreePassUsers(fileReadOk)|
    {
      if storageType == Memory then |memoryUsers|
      else if fileReadOk then |fileUsers|
      else 0
    }
  }
}
