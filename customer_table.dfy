/** The pure helpers and the row-selection state of
    client/src/components/customers/CustomerTable.jsx. Sorting, pagination
    and rendering belong to the table library and are not modelled. */
module CustomerTable {
  import opened Optional
  import opened CustomerModel
  import opened Text
  import opened CustomerApi

  // ---------------------------------------------------------------------
  // Filtering

  /** `defaultFilterFn`: a null or undefined cell reads as "", and both sides
      are lowered before the substring test. */
  function FilterMatches(cell: Option<string>, filter: string): bool {
    Contains(Lower(cell.GetOr("")), Lower(filter))
  }

  /** An empty filter keeps every row. */
  lemma EmptyFilterMatchesEveryRow(cell: Option<string>)
    ensures FilterMatches(cell, "")
  {
    assert OccursAt(Lower(cell.GetOr("")), Lower(""), 0);
  }

  /** A missing cell matches the empty filter and nothing else. */
  lemma MissingCellMatchesOnlyEmptyFilter(filter: string)
    ensures FilterMatches(None, filter) <==> filter == ""
  {
    EmptyFilterMatchesEveryRow(None);
  }

  /** Neither the filter's case nor the cell's case matters. */
  lemma FilterIgnoresCase(cell: string, filter: string)
    ensures FilterMatches(Some(cell), Upper(filter)) == FilterMatches(Some(cell), filter)
    ensures FilterMatches(Some(Upper(cell)), filter) == FilterMatches(Some(cell), filter)
  {
    LowerForgetsCase(filter);
    LowerForgetsCase(cell);
  }

  /** A cell matches any piece of its own text, in any case. */
  lemma CellMatchesItsOwnText(cell: string, i: nat, j: nat)
    requires i <= j <= |cell|
    ensures FilterMatches(Some(cell), cell[i..j])
    ensures FilterMatches(Some(cell), Upper(cell[i..j]))
  {
    assert OccursAt(cell, cell[i..j], i);
    ContainsLowered(cell, cell[i..j]);
    FilterIgnoresCase(cell, cell[i..j]);
  }

  /** Typing more of the filter can only drop rows: a row that matches a
      filter matches every piece of it. */
  lemma NarrowerFilterMatchesFewerRows(cell: Option<string>, filter: string, piece: string)
    requires Contains(filter, piece)
    ensures FilterMatches(cell, filter) ==> FilterMatches(cell, piece)
  {
    if FilterMatches(cell, filter) {
      ContainsLowered(filter, piece);
      ContainsTransitive(Lower(cell.GetOr("")), Lower(filter), Lower(piece));
    }
  }

  lemma ExtendedFilterMatchesFewerRows(cell: Option<string>, filter: string, more: string)
    ensures FilterMatches(cell, filter + more) ==> FilterMatches(cell, filter)
  {
    assert (filter + more)[0..|filter|] == filter;
    assert OccursAt(filter + more, filter, 0);
    NarrowerFilterMatchesFewerRows(cell, filter + more, filter);
  }

  // ---------------------------------------------------------------------
  // Truncation

  /** The suffix `truncate` appends. The source file holds the UTF-8 bytes of
      the ellipsis U+2026 re-read as Windows-1252 and saved again, so the
      literal is the three characters U+00E2 U+20AC U+00A6 ("â€¦"). */
  const GarbledEllipsis: string := "\U{00E2}\U{20AC}\U{00A6}"

  /** The ellipsis the suffix was meant to be. */
  const Ellipsis: char := '\U{2026}'

  /** `truncate(text, n)` as written: "" for missing or empty text; text
      longer than `n` keeps its first `n` characters and gains the
      three-character suffix. */
  function Truncate(text: Option<string>, n: nat): (r: string)
    ensures |r| <= n + 3
    ensures text.None? ==> r == ""
    ensures text.Some? && |text.value| <= n ==> r == text.value
    ensures text.Some? && |text.value| > n ==> r == text.value[..n] + GarbledEllipsis && |r| == n + 3
  {
    if text.None? || text.value == "" then ""
    else if |text.value| > n then text.value[..n] + GarbledEllipsis
    else text.value
  }

  /** As written, a truncated cell grows by three characters, not one. */
  lemma TruncateAppendsThreeCharacters()
    ensures Truncate(Some("abcdef"), 3) == "abc" + GarbledEllipsis
    ensures |Truncate(Some("abcdef"), 3)| == 6
  {
    assert "abcdef"[..3] == "abc";
  }

  /** `truncate` as intended: the single ellipsis character, so the result
      never exceeds `n + 1` characters. */
  function TruncateIntended(text: Option<string>, n: nat): (r: string)
    ensures |r| <= n + 1
    ensures text.None? ==> r == ""
    ensures text.Some? && |text.value| <= n ==> r == text.value
    ensures text.Some? && |text.value| > n ==> |r| == n + 1 && r[..n] == text.value[..n] && r[n] == Ellipsis
  {
    if text.None? || text.value == "" then ""
    else if |text.value| > n then text.value[..n] + [Ellipsis]
    else text.value
  }

  /** The two agree except on the suffix. */
  lemma TruncateDiffersOnlyInSuffix(text: Option<string>, n: nat)
    ensures |Truncate(text, n)| <= n ==> Truncate(text, n) == TruncateIntended(text, n)
    ensures |Truncate(text, n)| > n ==>
              Truncate(text, n)[..n] == TruncateIntended(text, n)[..n] &&
              Truncate(text, n)[n..] == GarbledEllipsis && TruncateIntended(text, n)[n..] == [Ellipsis]
  {
  }

  // ---------------------------------------------------------------------
  // Initials

  /** `s.split(" ")`: the pieces between single spaces, empty pieces
      included, so there is always at least one. */
  function SplitSpaces(s: string): (words: seq<string>)
    ensures |words| >= 1
  {
    if s == [] then [""]
    else if s[0] == ' ' then [""] + SplitSpaces(s[1..])
    else
      var rest := SplitSpaces(s[1..]);
      [[s[0]] + rest[0]] + rest[1..]
  }

  /** `words.join(" ")` */
  function JoinSpaces(words: seq<string>): string
    requires |words| >= 1
    decreases |words|
  {
    if |words| == 1 then words[0] else words[0] + " " + JoinSpaces(words[1..])
  }

  /** Splitting loses nothing: joining the pieces gives the string back, and
      no piece holds a space. */
  lemma {:induction false} SplitJoin(s: string)
    ensures JoinSpaces(SplitSpaces(s)) == s
    ensures forall k :: 0 <= k < |SplitSpaces(s)| ==> ' ' !in SplitSpaces(s)[k]
    decreases |s|
  {
    if s != [] {
      var rest := SplitSpaces(s[1..]);
      SplitJoin(s[1..]);
      var words := SplitSpaces(s);
      if s[0] == ' ' {
        assert words[1..] == rest;
        assert s == " " + s[1..];
        forall k | 0 <= k < |words|
          ensures ' ' !in words[k]
        {
          if k > 0 {
            assert words[k] == rest[k - 1];
          }
        }
      } else {
        assert words[1..] == rest[1..];
        assert words[0] == [s[0]] + rest[0];
        if |rest| > 1 {
          assert JoinSpaces(rest) == rest[0] + " " + JoinSpaces(rest[1..]);
        }
        assert s == [s[0]] + s[1..];
        forall k | 0 <= k < |words|
          ensures ' ' !in words[k]
        {
          if k > 0 {
            assert words[k] == rest[k];
          } else {
            assert ' ' !in rest[0];
          }
        }
      }
    }
  }

  /** `.map((n) => n[0]).join("")`: the first character of every piece; an
      empty piece gives `undefined`, which joins as "". */
  function Heads(words: seq<string>): string {
    if words == [] then []
    else (if words[0] == "" then [] else [words[0][0]]) + Heads(words[1..])
  }

  /** An independent reading of the same thing: every non-space character
      that starts the string or follows a space. `atStart` says whether the
      previous character was a space (or there was none). */
  function WordStarts(s: string, atStart: bool): string {
    if s == [] then []
    else (if atStart && s[0] != ' ' then [s[0]] else []) + WordStarts(s[1..], s[0] == ' ')
  }

  lemma {:induction false} HeadsOfSplit(s: string)
    ensures Heads(SplitSpaces(s)) == WordStarts(s, true)
    ensures Heads(SplitSpaces(s)[1..]) == WordStarts(s, false)
    decreases |s|
  {
    if s != [] {
      var rest := SplitSpaces(s[1..]);
      HeadsOfSplit(s[1..]);
      var words := SplitSpaces(s);
      if s[0] == ' ' {
        assert words == [""] + rest;
        assert words[1..] == rest;
      } else {
        assert words[1..] == rest[1..];
        assert words[0][0] == s[0];
      }
    }
  }

  /** The avatar fallback: the name or "User", split on spaces, the first
      character of each piece, the first two of those, upper-cased. */
  function Initials(name: string): (r: string)
    ensures |r| <= 2
  {
    var source := if name == "" then "User" else name;
    var heads := Heads(SplitSpaces(source));
    Upper(if |heads| <= 2 then heads else heads[..2])
  }

  /** The initials are the first two word starts of the name, upper-cased. */
  lemma InitialsAreFirstWordStarts(name: string)
    requires name != ""
    ensures var starts := WordStarts(name, true);
            Initials(name) == Upper(if |starts| <= 2 then starts else starts[..2])
  {
    HeadsOfSplit(name);
  }

  /** A missing name falls back to "User". */
  lemma InitialsOfEmptyName()
    ensures Initials("") == "U"
  {
    HeadsOfSplit("User");
  }

  lemma InitialsOfTwoWords()
    ensures Initials("ada lee") == "AL"
  {
    InitialsAreFirstWordStarts("ada lee");
    assert WordStarts("ee", false) == "";
    assert WordStarts("lee", true) == "l";
    assert WordStarts("a lee", false) == "l";
    assert WordStarts("ada lee", true) == "al";
  }

  /** Runs of spaces give empty pieces, which contribute nothing. */
  lemma InitialsSkipExtraSpaces()
    ensures Initials("  bo  x") == "BX"
  {
    InitialsAreFirstWordStarts("  bo  x");
    assert WordStarts("x", true) == "x";
    assert WordStarts("  x", false) == "x";
    assert WordStarts("o  x", false) == "x";
    assert WordStarts("bo  x", true) == "bx";
    assert WordStarts("  bo  x", true) == "bx";
  }

  /** The avatar's fallback when there are no initials: the person emoji
      U+1F464, whose UTF-8 bytes the source file holds re-read as
      Windows-1252, i.e. the four characters "ðŸ‘¤". */
  const GarbledPersonIcon: string := "\U{00F0}\U{0178}\U{2018}\U{00A4}"

  /** `initials || "ðŸ‘¤"` */
  function AvatarText(name: string): string {
    var initials := Initials(name);
    if initials == "" then GarbledPersonIcon else initials
  }

  /** The icon shows exactly when the name, or "User" for a missing one, has
      no word start: a name made only of spaces. */
  lemma IconForNamesWithoutWords(name: string)
    ensures AvatarText(name) == GarbledPersonIcon <==>
              WordStarts(if name == "" then "User" else name, true) == ""
  {
    var source := if name == "" then "User" else name;
    HeadsOfSplit(source);
    var heads := Heads(SplitSpaces(source));
    var shown := if |heads| <= 2 then heads else heads[..2];
    assert |Upper(shown)| == |shown|;
  }

  lemma IconForBlankName()
    ensures AvatarText(" ") == GarbledPersonIcon
  {
    IconForNamesWithoutWords(" ");
    assert WordStarts(" ", true) == "";
  }

  // ---------------------------------------------------------------------
  // Selection

  /** `s.filter((x) => x !== id)` */
  function Without(s: seq<Id>, id: Id): seq<Id> {
    if s == [] then []
    else (if s[0] == id then [] else [s[0]]) + Without(s[1..], id)
  }

  lemma {:induction false} WithoutMembers(s: seq<Id>, id: Id, x: Id)
    ensures x in Without(s, id) <==> x in s && x != id
    decreases |s|
  {
    if s != [] {
      WithoutMembers(s[1..], id, x);
      assert s == [s[0]] + s[1..];
    }
  }

  lemma {:induction false} WithoutConcat(a: seq<Id>, b: seq<Id>, id: Id)
    ensures Without(a + b, id) == Without(a, id) + Without(b, id)
    decreases |a|
  {
    if a == [] {
      assert a + b == b;
    } else {
      assert (a + b)[1..] == a[1..] + b;
      WithoutConcat(a[1..], b, id);
    }
  }

  lemma {:induction false} WithoutAbsent(s: seq<Id>, id: Id)
    requires id !in s
    ensures Without(s, id) == s
    decreases |s|
  {
    if s != [] {
      WithoutAbsent(s[1..], id);
    }
  }

  /** What `toggleSelect` stores: the id removed when present, appended when
      absent. */
  function Toggled(s: seq<Id>, id: Id): seq<Id> {
    if id in s then Without(s, id) else s + [id]
  }

  /** Toggling flips exactly the toggled id's membership. */
  lemma ToggleFlipsMembership(s: seq<Id>, id: Id, x: Id)
    ensures x in Toggled(s, id) <==> (if x == id then id !in s else x in s)
  {
    if id in s {
      WithoutMembers(s, id, x);
    }
  }

  /** Toggling the same id twice restores the original membership. */
  lemma ToggleTwiceRestoresMembership(s: seq<Id>, id: Id, x: Id)
    ensures x in Toggled(Toggled(s, id), id) <==> x in s
  {
    ToggleFlipsMembership(s, id, x);
    ToggleFlipsMembership(Toggled(s, id), id, x);
    ToggleFlipsMembership(s, id, id);
  }

  /** Starting from an unselected id, toggling twice restores the very list. */
  lemma ToggleTwiceRestores(s: seq<Id>, id: Id)
    requires id !in s
    ensures Toggled(Toggled(s, id), id) == s
  {
    WithoutConcat(s, [id], id);
    WithoutAbsent(s, id);
  }

  /** `data.map((c) => c._id)` */
  function Ids(data: seq<Customer>): (ids: seq<Id>)
    ensures |ids| == |data| && forall i :: 0 <= i < |data| ==> ids[i] == data[i].id
  {
    seq(|data|, i requires 0 <= i < |data| => data[i].id)
  }

  /** What `toggleSelectAll` stores. It compares lengths only. */
  function ToggledAll(s: seq<Id>, data: seq<Customer>): seq<Id> {
    if |s| == |data| then [] else Ids(data)
  }

  /** The header checkbox. */
  predicate HeaderChecked(s: seq<Id>, data: seq<Customer>) {
    |s| == |data| && |data| > 0
  }

  /** On a non-empty table, select-all checks the header exactly when it was
      unchecked, and then every row's id is selected. */
  lemma ToggleAllFlipsHeader(s: seq<Id>, data: seq<Customer>)
    requires |data| > 0
    ensures HeaderChecked(ToggledAll(s, data), data) <==> !HeaderChecked(s, data)
    ensures HeaderChecked(ToggledAll(s, data), data) ==> forall i :: 0 <= i < |data| ==> data[i].id in ToggledAll(s, data)
  {
  }

  class Selection {
    var selectedIds: seq<Id>

    constructor ()
      ensures selectedIds == []
    {
      selectedIds := [];
    }

    method ToggleSelect(id: Id)
      modifies this
      ensures selectedIds == Toggled(old(selectedIds), id)
    {
      if id in selectedIds {
        selectedIds := Without(selectedIds, id);
      } else {
        selectedIds := selectedIds + [id];
      }
    }

    method ToggleSelectAll(data: seq<Customer>)
      modifies this
      ensures selectedIds == ToggledAll(old(selectedIds), data)
    {
      var allIds := Ids(data);
      selectedIds := if |selectedIds| == |data| then [] else allIds;
    }

    /** `handleBulkDelete`: nothing with an empty selection; otherwise one
        delete of the whole selection, after which the selection is cleared
        on success and kept on failure. */
    method HandleBulkDelete(succeeded: bool) returns (request: Option<DeleteTarget>)
      modifies this
      ensures old(selectedIds) == [] ==> request.None? && selectedIds == old(selectedIds)
      ensures old(selectedIds) != [] ==> request == Some(Many(old(selectedIds)))
      ensures old(selectedIds) != [] ==> selectedIds == (if succeeded then [] else old(selectedIds))
    {
      if |selectedIds| == 0 {
        return None;
      }
      request := Some(Many(selectedIds));
      if succeeded {
        selectedIds := [];
      }
    }

    /** The row menu's delete: one delete of `[id]`; on success only that id
        leaves the selection. */
    method HandleRowDelete(id: Id, succeeded: bool) returns (request: DeleteTarget)
      modifies this
      ensures request == Many([id])
      ensures selectedIds == (if succeeded then Without(old(selectedIds), id) else old(selectedIds))
    {
      request := Many([id]);
      if succeeded {
        selectedIds := Without(selectedIds, id);
      }
    }
  }
}
