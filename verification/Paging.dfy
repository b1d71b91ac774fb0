/** The daemon's half of select-all: one snapshot per connection, handed out page by page on request. */
module Paging {
  import opened Bytes

  const SELECTION_START: u32 := 0
  const SELECTION_NEXT: u32 := 1
  const SELECTION_CANCEL: u32 := 2
  const PAGE_BYTES: nat := 65536

  datatype Selection = Selection(tab: u32, generation: u32, text: seq<byte>, offset: nat)

  datatype Page = Page(generation: u32, done: bool, bytes: seq<byte>)

  predicate ValidSelection(s: Option<Selection>) {
    s.Some? ==> s.value.offset <= |s.value.text|
  }

  /**
   One request. A start replaces whatever selection the connection had by a snapshot of `text`; every
   other operation counts only for the tab and generation of the current one.
   */
  function Request(s: Option<Selection>, tab: u32, generation: u32, operation: u32, text: seq<byte>)
    : (r: (Option<Selection>, Option<Page>))
    requires ValidSelection(s)
    ensures ValidSelection(r.0)
    ensures r.1.Some? ==> |r.1.value.bytes| <= PAGE_BYTES
  {
    var current := if operation == SELECTION_START then Some(Selection(tab, generation, text, 0)) else s;
    if current.None? || current.value.tab != tab || current.value.generation != generation then (current, None)
    else if operation == SELECTION_CANCEL then (None, None)
    else if operation != SELECTION_START && operation != SELECTION_NEXT then (current, None)
    else
      var all, offset := current.value.text, current.value.offset;
      var end := Min(offset + PAGE_BYTES, |all|);
      var done := end == |all|;
      (if done then None else Some(current.value.(offset := end)), Some(Page(generation, done, all[offset..end])))
  }

  /**
   What a request means. A START replaces whatever selection there was and answers with the snapshot's first page;
   any other request of another tab or generation is ignored; a CANCEL forgets; a NEXT answers with exactly the
   bytes after those already handed out, and the selection is forgotten with its last page.
   */
  lemma Requested(s: Option<Selection>, tab: u32, generation: u32, operation: u32, text: seq<byte>)
    requires ValidSelection(s)
    ensures var (after, page) := Request(s, tab, generation, operation, text);
      var mine := s.Some? && s.value.tab == tab && s.value.generation == generation;
      && (operation == SELECTION_START ==>
            && page.Some? && page.value.generation == generation && page.value.bytes <= text
            && (page.value.done <==> page.value.bytes == text) && (!page.value.done ==> |page.value.bytes| == PAGE_BYTES)
            && after == if page.value.done then None else Some(Selection(tab, generation, text, PAGE_BYTES)))
      && (operation != SELECTION_START && !mine ==> after == s && page == None)
      && (operation == SELECTION_CANCEL && mine ==> after == None && page == None)
      && (operation == SELECTION_NEXT && mine ==>
            var all, given := s.value.text, s.value.text[..s.value.offset];
            && page.Some? && page.value.generation == generation && given + page.value.bytes <= all
            && (page.value.done <==> given + page.value.bytes == all) && (!page.value.done ==> |page.value.bytes| == PAGE_BYTES)
            && after == if page.value.done then None else Some(s.value.(offset := |given + page.value.bytes|)))
  {
    if operation == SELECTION_NEXT && s.Some? {
      var all, offset := s.value.text, s.value.offset;
      var end := Min(offset + PAGE_BYTES, |all|);
      assert all[..offset] + all[offset..end] == all[..end];
      assert end == |all| <==> all[..end] == all;
    }
    if operation == SELECTION_START {
      assert |text| <= PAGE_BYTES ==> text[0..|text|] == text;
    }
  }
}
