/**
 * The all-contacts list's fast-scroll index: a map from a section key (the first
 * letter of a contact's header, upper-cased, or "#") to the first list position in
 * that section, the indicator text shown for a position, and the position the list
 * jumps to when an indicator is selected.
 *
 * The adapter is represented by its header strings, one per list item (null allowed).
 * The RecyclerView, the fast-scroller library and its views are inputs.
 */
module Contacts {
  import opened Wrappers
  import JavaText

  /** The section key of a header: "#" when it trims to nothing, else its first character upper-cased. */
  function IndexKey(header: string): (key: string)
    ensures |key| == 1
    ensures JavaText.Trim(header) == "" ==> key == "#"
    ensures JavaText.Trim(header) != "" ==> key == [JavaText.UpperChar(header[0])]
  {
    if JavaText.Trim(header) == "" then "#" else JavaText.Upper(header[..1])
  }

  /** The key of item i, if its header is not null. */
  function KeyAt(headers: seq<Option<string>>, i: nat): Option<string>
    requires i < |headers|
  {
    if headers[i].None? then None else Some(IndexKey(headers[i].value))
  }

  /** The section key of every item, in order. */
  function SectionKeys(headers: seq<Option<string>>): (keys: seq<Option<string>>)
    ensures |keys| == |headers|
    ensures forall i | 0 <= i < |headers| :: keys[i] == KeyAt(headers, i)
  {
    seq(|headers|, i requires 0 <= i < |headers| => KeyAt(headers, i))
  }

  /** Keys met in order, each mapped to the position where it is first met. */
  function FirstPositions(keys: seq<Option<string>>): (m: map<string, int>)
    decreases |keys|
    ensures forall k | k in m :: 0 <= m[k] < |keys| && keys[m[k]] == Some(k)
  {
    if |keys| == 0 then map[]
    else
      var m := FirstPositions(keys[..|keys| - 1]);
      var last := keys[|keys| - 1];
      if last.Some? && last.value !in m then m[last.value := |keys| - 1] else m
  }

  lemma {:induction false} FirstPositionsAreFirst(keys: seq<Option<string>>, key: string)
    decreases |keys|
    ensures key in FirstPositions(keys) <==> Some(key) in keys
    ensures key in FirstPositions(keys) ==>
      var p := FirstPositions(keys)[key];
      0 <= p < |keys| && keys[p] == Some(key) && Some(key) !in keys[..p]
  {
    if |keys| > 0 {
      var n := |keys| - 1;
      var prefix := keys[..n];
      FirstPositionsAreFirst(prefix, key);
      assert keys == prefix + [keys[n]];
      var m := FirstPositions(prefix);
      if key in m {
        assert keys[..m[key]] == prefix[..m[key]];
      }
    }
  }

  /** Meeting one more key: it is added, at its position, unless already present. */
  lemma FirstPositionsStep(keys: seq<Option<string>>, i: nat)
    requires i < |keys|
    ensures var m := FirstPositions(keys[..i]);
      FirstPositions(keys[..i + 1]) == if keys[i].Some? && keys[i].value !in m then m[keys[i].value := i] else m
  {
    assert keys[..i + 1][..i] == keys[..i];
  }

  /** The index built over the items in order: a key is added the first time it is met. */
  function BuildIndex(headers: seq<Option<string>>): (index: map<string, int>)
    ensures forall k | k in index :: 0 <= index[k] < |headers| && KeyAt(headers, index[k]) == Some(k)
  {
    FirstPositions(SectionKeys(headers))
  }

  /**
   * The index holds exactly the keys of the non-null headers, and maps each to the
   * smallest position having that key, which lies in [0, itemCount).
   */
  lemma BuildIndexFirstPositions(headers: seq<Option<string>>, key: string)
    ensures key in BuildIndex(headers) <==> exists i | 0 <= i < |headers| :: KeyAt(headers, i) == Some(key)
    ensures key in BuildIndex(headers) ==>
      var p := BuildIndex(headers)[key];
      && 0 <= p < |headers| && KeyAt(headers, p) == Some(key)
      && forall j | 0 <= j < p :: KeyAt(headers, j) != Some(key)
  {
    var keys := SectionKeys(headers);
    FirstPositionsAreFirst(keys, key);
    if key in BuildIndex(headers) {
      var p := BuildIndex(headers)[key];
      forall j | 0 <= j < p ensures KeyAt(headers, j) != Some(key) {
        assert keys[..p][j] == keys[j];
      }
    }
    if exists i | 0 <= i < |headers| :: KeyAt(headers, i) == Some(key) {
      var i :| 0 <= i < |headers| && KeyAt(headers, i) == Some(key);
      assert keys[i] == Some(key);
    }
  }

  /**
   * The fast-scroller's indicator for one item: "#" for a null or empty header,
   * otherwise its first character upper-cased. Unlike the index key it does not trim.
   */
  function IndicatorText(header: Option<string>): (text: string)
    ensures |text| == 1
    ensures JavaText.IsEmpty(header) ==> text == "#"
    ensures !JavaText.IsEmpty(header) ==> text == [JavaText.UpperChar(header.value[0])]
  {
    if JavaText.IsEmpty(header) then "#" else JavaText.Upper(header.value[..1])
  }

  /** The indicator and the index key agree for every header that starts with a visible character. */
  lemma IndicatorMatchesKey(header: string)
    requires |header| > 0 && !JavaText.IsTrimmed(header[0])
    ensures IndicatorText(Some(header)) == IndexKey(header)
  {
    assert !JavaText.IsTrimmed(header[0]);
  }

  /**
   * The position the list jumps to when an indicator is selected, NO_POSITION being
   * None: the indicator's text, trimmed and upper-cased, if the index maps it; else,
   * for an in-range itemPosition, the start of its header's section when the index
   * has one, or itemPosition itself; else nowhere.
   */
  function ResolveTarget(index: map<string, int>, headers: seq<Option<string>>,
                         indicatorText: Option<string>, itemPosition: int): Option<int>
  {
    var byText :=
      if indicatorText.Some? && JavaText.Upper(JavaText.Trim(indicatorText.value)) in index
      then Some(index[JavaText.Upper(JavaText.Trim(indicatorText.value))])
      else None;
    if byText.Some? then byText
    else if 0 <= itemPosition < |headers| then
      var derived := headers[itemPosition];
      if !JavaText.IsEmpty(derived) && JavaText.Upper(derived.value[..1]) in index
      then Some(index[JavaText.Upper(derived.value[..1])])
      else Some(itemPosition)
    else None
  }

  /**
   * Over the index built from the same items, a target always lies in [0, itemCount),
   * and there is no target exactly when the text does not map and itemPosition is out of range.
   */
  lemma ResolveTargetInRange(headers: seq<Option<string>>, indicatorText: Option<string>, itemPosition: int)
    ensures var index := BuildIndex(headers);
      var t := ResolveTarget(index, headers, indicatorText, itemPosition);
      && (t.Some? ==> 0 <= t.value < |headers|)
      && (t.None? <==>
            (indicatorText.None? || JavaText.Upper(JavaText.Trim(indicatorText.value)) !in index)
            && !(0 <= itemPosition < |headers|))
  {
    var index := BuildIndex(headers);
    if indicatorText.Some? {
      BuildIndexFirstPositions(headers, JavaText.Upper(JavaText.Trim(indicatorText.value)));
    }
    if 0 <= itemPosition < |headers| && !JavaText.IsEmpty(headers[itemPosition]) {
      BuildIndexFirstPositions(headers, JavaText.Upper(headers[itemPosition].value[..1]));
    }
  }

  /**
   * Selecting the indicator shown for item i jumps to the first item of i's section,
   * which is not after i, whatever itemPosition the scroller reports.
   */
  lemma SelectingShownIndicatorJumpsToSectionStart(headers: seq<Option<string>>, i: nat, itemPosition: int)
    requires i < |headers| && headers[i].Some? && |headers[i].value| > 0
    requires !JavaText.IsTrimmed(headers[i].value[0])
    ensures var t := ResolveTarget(BuildIndex(headers), headers, Some(IndicatorText(headers[i])), itemPosition);
      && t.Some? && 0 <= t.value <= i && KeyAt(headers, t.value) == KeyAt(headers, i)
      && forall j | 0 <= j < t.value :: KeyAt(headers, j) != KeyAt(headers, i)
  {
    var h := headers[i].value;
    var text := IndicatorText(headers[i]);
    IndicatorMatchesKey(h);
    JavaText.TrimSingle(text[0]);
    assert [text[0]] == text;
    JavaText.UpperIdempotent(text);
    assert JavaText.Upper(JavaText.Trim(text)) == IndexKey(h);
    assert KeyAt(headers, i) == Some(IndexKey(h));
    BuildIndexFirstPositions(headers, IndexKey(h));
  }

  /** What setupWithRecyclerView does: attach, throw IllegalStateException, or throw anything else. */
  datatype SetupResult = SetupAttached | SetupIllegalState | SetupOtherFailure

  class ContactsFragment {
    var headers: seq<Option<string>>          // the adapter's header strings
    var adapterPresent: bool
    var indicatorIndexMap: map<string, int>
    var fastScrollerSetupDone: bool
    var setupCalls: nat                        // calls made to setupWithRecyclerView
    var selectionCallbacks: nat                // indicator-selected callbacks registered
    var emptyViewVisible: bool
    var listVisible: bool
    var scrollerHidden: bool

    constructor ()
      ensures headers == [] && adapterPresent && indicatorIndexMap == map[]
      ensures !fastScrollerSetupDone && setupCalls == 0 && selectionCallbacks == 0
      ensures !emptyViewVisible && !listVisible && !scrollerHidden
    {
      headers, adapterPresent, indicatorIndexMap := [], true, map[];
      fastScrollerSetupDone, setupCalls, selectionCallbacks := false, 0, 0;
      emptyViewVisible, listVisible, scrollerHidden := false, false, false;
    }

    /** Clear the index and rebuild it from the adapter's headers, first position per key. */
    method RebuildIndex()
      modifies this`indicatorIndexMap
      ensures indicatorIndexMap == BuildIndex(headers)
    {
      var hs := headers;
      ghost var keys := SectionKeys(hs);
      indicatorIndexMap := map[];
      var i := 0;
      while i < |hs|
        invariant 0 <= i <= |hs|
        invariant indicatorIndexMap == FirstPositions(keys[..i])
      {
        FirstPositionsStep(keys, i);
        var key := KeyAt(hs, i);
        if key.Some? && key.value !in indicatorIndexMap {
          indicatorIndexMap := indicatorIndexMap[key.value := i];
        }
        i := i + 1;
      }
      assert keys[..|hs|] == keys;
    }

    /**
     * setupWithRecyclerView is called only while the flag is unset; the flag is set
     * when it attaches or throws IllegalStateException, and left unset on any other failure.
     */
    method SetupScroller(result: SetupResult)
      modifies this`fastScrollerSetupDone, this`setupCalls
      ensures old(fastScrollerSetupDone) ==> fastScrollerSetupDone && setupCalls == old(setupCalls)
      ensures !old(fastScrollerSetupDone) ==>
        setupCalls == old(setupCalls) + 1 && fastScrollerSetupDone == (result != SetupOtherFailure)
    {
      if !fastScrollerSetupDone {
        setupCalls := setupCalls + 1;
        match result {
          case SetupAttached => fastScrollerSetupDone := true;
          case SetupIllegalState => fastScrollerSetupDone := true;
          case SetupOtherFailure =>
        }
      }
    }

    /**
     * onLoadFinished. A null or empty cursor shows the empty view and hides the list,
     * leaving the index alone. Otherwise the list shows, the adapter takes the new
     * items and the index is rebuilt; when the list needs a fast scroller and both
     * scroller views exist it is set up (at most once) and one more selection
     * callback is registered, else an existing scroller is hidden.
     */
    method OnLoadFinished(cursor: Option<seq<Option<string>>>, needFast: bool, hasScroller: bool,
                          hasThumb: bool, setup: SetupResult)
      requires cursor.Some? && cursor.value != [] ==> adapterPresent
      modifies this
      ensures cursor.None? || cursor.value == [] ==>
        && emptyViewVisible && !listVisible
        && headers == old(headers) && indicatorIndexMap == old(indicatorIndexMap)
        && fastScrollerSetupDone == old(fastScrollerSetupDone) && setupCalls == old(setupCalls)
        && selectionCallbacks == old(selectionCallbacks) && scrollerHidden == old(scrollerHidden)
      ensures cursor.Some? && cursor.value != [] ==>
        && !emptyViewVisible && listVisible
        && headers == cursor.value && indicatorIndexMap == BuildIndex(cursor.value)
        && (needFast && hasScroller && hasThumb ==>
              && (old(fastScrollerSetupDone) ==> fastScrollerSetupDone && setupCalls == old(setupCalls))
              && (!old(fastScrollerSetupDone) ==>
                    setupCalls == old(setupCalls) + 1 && fastScrollerSetupDone == (setup != SetupOtherFailure))
              && selectionCallbacks == old(selectionCallbacks) + 1
              && scrollerHidden == old(scrollerHidden))
        && (!(needFast && hasScroller && hasThumb) ==>
              && fastScrollerSetupDone == old(fastScrollerSetupDone) && setupCalls == old(setupCalls)
              && selectionCallbacks == old(selectionCallbacks)
              && scrollerHidden == (old(scrollerHidden) || hasScroller))
      ensures adapterPresent == old(adapterPresent)
    {
      if cursor.None? || |cursor.value| == 0 {
        emptyViewVisible := true;
        listVisible := false;
        return;
      }
      emptyViewVisible := false;
      listVisible := true;
      headers := cursor.value;
      RebuildIndex();
      if needFast && hasScroller && hasThumb {
        SetupScroller(setup);
        selectionCallbacks := selectionCallbacks + 1;
      } else if hasScroller {
        scrollerHidden := true;
      }
    }

    /**
     * A new adapter is attached to the list, with no items yet: the lifecycle code
     * that creates it before a load.
     */
    method AttachAdapter()
      modifies this`adapterPresent, this`headers
      ensures adapterPresent && headers == []
    {
      adapterPresent, headers := true, [];
    }

    /** onLoaderReset: drop the adapter, clear the index and allow the scroller to be set up again. */
    method OnLoaderReset()
      modifies this
      ensures !adapterPresent && indicatorIndexMap == map[] && !fastScrollerSetupDone
      ensures headers == old(headers) && setupCalls == old(setupCalls)
      ensures selectionCallbacks == old(selectionCallbacks)
      ensures emptyViewVisible == old(emptyViewVisible) && listVisible == old(listVisible)
      ensures scrollerHidden == old(scrollerHidden)
    {
      adapterPresent := false;
      indicatorIndexMap := map[];
      fastScrollerSetupDone := false;
    }
  }

  /**
   * Two loads that both need the scroller call setupWithRecyclerView once when the first
   * attaches; a reset makes no call itself, but lets the next load with a new adapter
   * set the scroller up once more.
   */
  method SetupOnceScenario() returns (callsAfterTwoLoads: nat, callsAfterReset: nat, callsAfterReload: nat)
    ensures callsAfterTwoLoads == 1 && callsAfterReset == 1 && callsAfterReload == 2
  {
    var fragment := new ContactsFragment();
    var items := [Some("Alice"), Some("Bob")];
    fragment.OnLoadFinished(Some(items), true, true, true, SetupAttached);
    fragment.OnLoadFinished(Some(items), true, true, true, SetupAttached);
    callsAfterTwoLoads := fragment.setupCalls;
    fragment.OnLoaderReset();
    callsAfterReset := fragment.setupCalls;
    fragment.AttachAdapter();
    fragment.OnLoadFinished(Some(items), true, true, true, SetupAttached);
    callsAfterReload := fragment.setupCalls;
  }
}
