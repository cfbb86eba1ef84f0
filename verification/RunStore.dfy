/** A store of run records with one exclusive lease per run. Encoding is left out: a record is
    stored as a value, and reading one back applies the check decoding applies. */
module RunStore {
  import opened Wrappers
  import opened GraphCore
  import opened RunModel

  predicate IdChar(c: char) {
    'a' <= c <= 'z' || 'A' <= c <= 'Z' || '0' <= c <= '9' || c == '-' || c == '_'
  }

  predicate ValidId(id: string) {
    0 < |id| <= 128 && forall i | 0 <= i < |id| :: IdChar(id[i])
  }

  /** ASCII letters, digits, hyphen and underscore, by their codes: 1 to 128 of them. */
  lemma ValidIdMeans(id: string)
    ensures ValidId(id) <==>
              && 1 <= |id| <= 128
              && forall c | c in id ::
                   97 <= c as int <= 122 || 65 <= c as int <= 90 || 48 <= c as int <= 57
                   || c as int == 45 || c as int == 95
  {
    assert forall i | 0 <= i < |id| :: id[i] in id;
  }

  /** What becomes of a save: confirmed, done although it is reported as failed, or not done. */
  datatype Fate = Confirmed | Unseen | Lost

  /** The outside world at one moment: the clock, the cancellation of the run and of the branch group at
      hand, the store's medium, the next fresh token, and what the action of a task would yield. */
  datatype Moment = Moment(
    now: nat,
    runCancelled: bool,
    groupCancelled: bool,
    medium: Fate,
    token: string,
    outcome: TaskId -> Option<Json>)

  /** The outside world. Nothing in it is decided by an execution; each look takes a later moment. */
  class World {
    const at: nat -> Moment
    var time: nat

    constructor (at: nat -> Moment)
      ensures this.at == at && time == 0
    {
      this.at, time := at, 0;
    }

    method Look() returns (moment: Moment)
      modifies this`time
      ensures moment == at(old(time)) && time == old(time) + 1
    {
      moment := at(time);
      time := time + 1;
    }
  }

  /** Saves failed at some moment of the span. */
  predicate Faulty(at: nat -> Moment, from: nat, to: nat) {
    exists k | from <= k < to :: !at(k).medium.Confirmed?
  }

  predicate RunCancelled(at: nat -> Moment, from: nat, to: nat) {
    exists k | from <= k < to :: at(k).runCancelled
  }

  predicate GroupCancelled(at: nat -> Moment, from: nat, to: nat) {
    exists k | from <= k < to :: at(k).groupCancelled
  }

  class Store {
    const world: World
    var records: map<string, RunRecord>
    var held: set<string>

    constructor (world: World)
      ensures this.world == world && records == map[] && held == {}
    {
      this.world, records, held := world, map[], {};
    }

    /** Why no lease of the run can be had. */
    function Refusal(id: string): Option<DurableError>
      reads this`held
    {
      if !ValidId(id) then Some(Conflict) else if id in held then Some(Busy) else None
    }

    /** At most one lease per run is ever held. */
    method Acquire(id: string) returns (r: Result<(), DurableError>)
      modifies this`held
      ensures r.Ok? <==> ValidId(id) && id !in old(held)
      ensures held == if r.Ok? then old(held) + {id} else old(held)
      ensures r == match old(Refusal(id)) case None => Ok(()) case Some(e) => Err(e)
    {
      if !ValidId(id) {
        return Err(Conflict);
      }
      if id in held {
        return Err(Busy);
      }
      held := held + {id};
      r := Ok(());
    }

    method Release(id: string)
      modifies this`held
      ensures held == old(held) - {id}
    {
      held := held - {id};
    }

    /** What a lease or an inspection reads. */
    function Load(id: string): (r: Result<Option<RunRecord>, DurableError>)
      reads this`records
      ensures r == if id !in records then Ok(None)
                   else if Readable(records[id]) then Ok(Some(records[id]))
                   else Err(if records[id].formatVersion == 2 then Incompatible else UnsupportedFormat)
    {
      if id !in records then Ok(None)
      else
        ValidateExactly(records[id]);
        match Validate(records[id])
        case Ok(_) => Ok(Some(records[id]))
        case Err(e) => Err(e)
    }

    /** Publish a record. I/O may fail, before or after the record became visible. */
    method Save(id: string, record: RunRecord) returns (r: Result<(), DurableError>)
      modifies this`records, world`time
      ensures record.runId != id ==> r == Err(Conflict) && records == old(records) && world.time == old(world.time)
      ensures record.runId == id ==>
                var fate := world.at(old(world.time)).medium;
                && world.time == old(world.time) + 1
                && r == (if fate.Confirmed? then Ok(()) else Err(Storage))
                && records == if fate.Lost? then old(records) else old(records)[id := record]
    {
      if record.runId != id {
        return Err(Conflict);
      }
      var moment := world.Look();
      if moment.medium.Lost? {
        return Err(Storage);
      }
      records := records[id := record];
      r := if moment.medium.Confirmed? then Ok(()) else Err(Storage);
    }
  }
}
