/** The select-all part of a terminal view as an object, with its wrapping generation and deferred copy. */
module Collectors {
  import opened Bytes
  import opened Paging
  import opened Selections
  import F = Framing

  /** A clipboard a copy goes to. */
  type Atom = nat

  const PRIMARY: Atom := 1

  datatype Copied = Copied(atom: Atom, text: seq<byte>)

  function PageBody(p: Page): (b: seq<byte>) {
    PutU32(p.generation) + PutU32(if p.done then 1 else 0) + p.bytes
  }

  function ParsePage(b: seq<byte>): (p: Option<Page>) {
    if |b| < 8 || WordAt(b, 4) > 1 then None else Some(Page(WordAt(b, 0), WordAt(b, 4) == 1, b[8..]))
  }

  /** What the daemon writes is what the view reads. */
  lemma PageRoundTrip(p: Page)
    ensures ParsePage(PageBody(p)) == Some(p)
  {
    hide GetU32, PutU32;
    var b := PageBody(p);
    assert b[0..4] == PutU32(p.generation) && b[4..8] == PutU32(if p.done then 1 else 0) && b[8..] == p.bytes;
    GetPut(p.generation);
    GetPut(if p.done then 1 else 0);
  }

  /** The select-all part of a terminal view, with its wrapping generation. */
  class Collector {
    var allText: Option<seq<byte>>
    var allGeneration: u32
    var allPending: bool
    var allCopy: Option<Atom>

    /** History: the generation without wrapping, and how many pages were asked for. */
    ghost var serial: nat
    ghost var nexts: nat

    ghost function Value(): View
      reads this
    {
      View(serial, allText, allPending, nexts)
    }

    ghost predicate Valid()
      reads this
    {
      allGeneration == Generation(serial) && (allPending ==> allText.Some?) && (allCopy.Some? ==> allPending)
    }

    constructor ()
      ensures Valid() && Value() == NEW_VIEW && allCopy == None
    {
      allText, allGeneration, allPending, allCopy, serial, nexts := None, 0, false, None, 0, 0;
    }

    /** Forget the selection; a pending one is cancelled under its own generation. */
    method ClearAllSelection() returns (cancel: Option<u32>)
      requires Valid()
      modifies this
      ensures Valid() && Value() == Cleared(old(Value())) && allCopy == None
      ensures cancel == if old(allPending) then Some(Generation(old(serial))) else None
    {
      cancel := if allPending then Some(allGeneration) else None;
      NextGeneration(serial);
      allGeneration := if allGeneration == 0xffff_ffff then 0 else allGeneration + 1;
      allText, allPending, allCopy := None, false, None;
      serial, nexts := serial + 1, 0;
    }

    method SelectAll() returns (cancel: Option<u32>, start: u32)
      requires Valid()
      modifies this
      ensures Valid() && Value() == Cleared(old(Value())).(text := Some([]), pending := true) && allCopy == None
      ensures cancel == (if old(allPending) then Some(Generation(old(serial))) else None) && start == Generation(serial)
    {
      cancel := ClearAllSelection();
      allText, allPending := Some([]), true;
      start := allGeneration;
    }

    /** Copy now, or when the pending text is complete; what is copied is never a part of it. */
    method Copy(atom: Atom, viewport: seq<byte>) returns (copied: seq<Copied>)
      requires Valid()
      modifies this`allCopy
      ensures Valid()
      ensures allPending ==> copied == [] && allCopy == Some(atom)
      ensures !allPending ==>
        && allCopy == old(allCopy)
        && var text := if allText.Some? then allText.value else viewport;
           copied == if text == [] then [] else [Copied(atom, text)]
    {
      if allPending {
        allCopy := Some(atom);
        return [];
      }
      var text := if allText.Some? then allText.value else viewport;
      copied := if text == [] then [] else [Copied(atom, text)];
    }

    /** One page. A deferred copy happens once, on completion, with the whole text; a malformed page changes nothing. */
    method AllPacket(body: seq<byte>) returns (ok: bool, next: Option<u32>, copied: seq<Copied>)
      requires Valid()
      modifies this
      ensures Valid() && ok == ParsePage(body).Some?
      ensures !ok || !Wanted(old(Value()), ParsePage(body).value) ==> unchanged(this) && next == None && copied == []
      ensures ok && Wanted(old(Value()), ParsePage(body).value) ==>
        var page := ParsePage(body).value;
        && Value() == Collected(old(Value()), page)
        && next == (if page.done then None else Some(Generation(serial)))
        && var text := allText.value;
           copied == if !page.done || text == [] then []
                     else [Copied(PRIMARY, text)] + (if old(allCopy).Some? then [Copied(old(allCopy).value, text)] else [])
    {
      hide Generation, WordAt;
      SkipWords(body);
      var payload := new F.Payload(body);
      var generation := payload.Word();
      var done := payload.Word();
      if done.None? || done.value > 1 {
        return false, None, [];
      }
      if !allPending || generation.value != allGeneration {
        return true, None, [];
      }
      allText := Some(allText.value + payload.bytes);
      if done.value == 0 {
        nexts := nexts + 1;
        return true, Some(allGeneration), [];
      }
      allPending := false;
      var deferred := allCopy;
      allCopy := None;
      var first := Copy(PRIMARY, []);
      var second := [];
      if deferred.Some? {
        second := Copy(deferred.value, []);
      }
      return true, None, first + second;
    }
  }

  lemma NextGeneration(serial: nat)
    ensures Generation(serial + 1) == if Generation(serial) == 0xffff_ffff then 0 else Generation(serial) + 1
  {
  }

}
