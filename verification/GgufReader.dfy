/** The metadata readers as they run: one stream advanced in place under two budgets.

    Every method is proved equal to its function in `GgufFormat`; the contracts add what those
    functions cannot say: how far the stream moved and what the budgets were charged. */
module GgufReader {
  import opened Common
  import opened Text
  import F = GgufFormat

  class MetadataReader {
    const data: Bytes
    var pos: nat
    var bounded: bool       // reading through the counting reader
    var consumed: nat
    var retained: nat
    ghost var iterations: nat   // completed rounds of the entry and element loops

    constructor (data: Bytes)
      ensures Valid() && this.data == data && pos == 0 && !bounded && iterations == 0
    {
      this.data := data;
      pos, bounded, consumed, retained, iterations := 0, false, 0, 0, 0;
    }

    ghost predicate Valid()
      reads this
    {
      pos <= |data| && consumed <= F.MAX_SECTION_BYTES && retained <= F.MAX_RETAINED_BYTES
    }

    // The bytes still within reach end where the file or the section budget ends.
    ghost function View(): (src: F.Source)
      requires Valid()
      reads this
      ensures pos <= |src.data| <= |data| && src.data == data[..|src.data|]
    {
      if !bounded then F.Source(data, false)
      else
        var stop := pos + (F.MAX_SECTION_BYTES - consumed);
        if stop <= |data| then F.Source(data[..stop], true) else F.Source(data, false)
    }

    // The stream moved forward, the section budget paid for exactly that distance, and no
    // more loop rounds were completed than bytes were read.
    twostate predicate Advanced()
      requires old(Valid())
      reads this
    {
      && Valid() && bounded == old(bounded) && retained == old(retained)
      && old(pos) <= pos
      && consumed == (if bounded then old(consumed) + (pos - old(pos)) else old(consumed))
      && View() == old(View())
      && old(iterations) <= iterations <= old(iterations) + (pos - old(pos))
    }

    method AddRetained(n: nat) returns (ok: bool)
      requires Valid()
      modifies this`retained
      ensures Valid() && ok == F.Fits(old(retained), n)
      ensures retained == if ok then old(retained) + n else old(retained)
    {
      if n > F.MAX_RETAINED_BYTES || retained > F.MAX_RETAINED_BYTES - n {
        return false;
      }
      retained := retained + n;
      return true;
    }

    // One Read of the counting reader: the stream may deliver fewer bytes than asked for.
    method Read(n: nat) returns (k: nat, error: Option<F.Error>)
      requires Valid() && n > 0
      modifies this`pos, this`consumed
      ensures Advanced()
      ensures error.None? ==> 1 <= k <= n && pos == old(pos) + k
      ensures error.Some? ==> k == 0 && pos == old(pos) == |old(View()).data|
                              && error.value == (if old(View()).capped then F.BudgetExceeded else F.EndOfInput)
    {
      if bounded && consumed >= F.MAX_SECTION_BYTES {
        return 0, Some(F.BudgetExceeded);
      }
      var room := n;
      if bounded && room > F.MAX_SECTION_BYTES - consumed {
        room := F.MAX_SECTION_BYTES - consumed;
      }
      if pos == |data| {
        return 0, Some(F.EndOfInput);
      }
      var available := |data| - pos;
      k :| 1 <= k <= room && k <= available;
      pos := pos + k;
      if bounded {
        consumed := consumed + k;
      }
      error := None;
    }

    method ReadFull(n: nat) returns (r: F.Parse<Bytes>)
      requires Valid()
      modifies this`pos, this`consumed
      ensures Advanced() && r == F.Take(old(View()), old(pos), n) && pos == r.next
    {
      var buffer: Bytes := [];
      while |buffer| < n
        invariant Advanced() && |buffer| <= n && pos == old(pos) + |buffer|
        invariant buffer == data[old(pos)..pos]
        decreases n - |buffer|
      {
        var k, error := Read(n - |buffer|);
        if error.Some? {
          return F.Err(error.value, pos);
        }
        buffer := buffer + data[pos - k..pos];
      }
      assert pos <= |View().data| && buffer == View().data[old(pos)..pos];
      r := F.Ok(buffer, pos);
    }

    method SkipBytes(n: nat) returns (r: F.Parse<()>)
      requires Valid()
      modifies this`pos, this`consumed
      ensures Advanced() && r == F.Skip(old(View()), old(pos), n) && pos == r.next
    {
      var left: nat := n;
      while left > 0
        invariant Advanced() && left <= n && pos == old(pos) + (n - left)
        decreases left
      {
        var k, error := Read(left);
        if error.Some? {
          return F.Err(error.value, pos);
        }
        left := left - k;
      }
      assert pos <= |View().data|;
      r := F.Ok((), pos);
    }

    method ReadUint(size: nat) returns (r: F.Parse<nat>)
      requires Valid()
      modifies this`pos, this`consumed
      ensures Advanced() && r == F.ReadUint(old(View()), old(pos), size) && pos == r.next
    {
      var b := ReadFull(size);
      r := if b.Err? then F.Err(b.error, b.next) else F.Ok(F.LittleEndian(b.value), b.next);
    }

    method ReadKey() returns (r: F.Parse<Bytes>)
      requires Valid()
      modifies this`pos, this`consumed
      ensures Advanced() && r == F.ReadKey(old(View()), old(pos)) && pos == r.next
    {
      var n := ReadUint(8);
      if n.Err? { return F.Err(n.error, n.next); }
      if n.value > F.MAX_KEY_BYTES { return F.Err(F.UnreasonableKey, pos); }
      r := ReadFull(n.value);
    }

    method ReadString() returns (r: F.Parse<F.Str>)
      requires Valid()
      modifies this`pos, this`consumed
      ensures Advanced() && r == F.ReadString(old(View()), old(pos)) && pos == r.next
    {
      var n := ReadUint(8);
      if n.Err? { return F.Err(n.error, n.next); }
      if n.value > F.MAX_STRING_BYTES { return F.Err(F.UnreasonableString, pos); }
      var take, truncated := n.value, false;
      if take > F.MAX_DISPLAY_BYTES {
        take, truncated := F.MAX_DISPLAY_BYTES, true;
      }
      var b := ReadFull(take);
      if b.Err? { return F.Err(b.error, b.next); }
      if n.value > take {
        var s := SkipBytes(n.value - take);
        if s.Err? { return F.Err(s.error, s.next); }
      }
      var text: string := b.value;
      if truncated {
        text := text + F.ELLIPSIS;
      }
      r := F.Ok(F.Str(text, truncated), pos);
    }

    method SkipString() returns (r: F.Parse<()>)
      requires Valid()
      modifies this`pos, this`consumed
      ensures Advanced() && r == F.SkipString(old(View()), old(pos)) && pos == r.next
    {
      var n := ReadUint(8);
      if n.Err? { return F.Err(n.error, n.next); }
      if n.value > F.MAX_STRING_BYTES { return F.Err(F.UnreasonableString, pos); }
      r := SkipBytes(n.value);
    }

    method ReadScalar(lib: F.Library, t: nat) returns (r: F.Parse<F.Value>)
      requires Valid()
      modifies this`pos, this`consumed
      ensures Advanced() && r == F.ReadScalar(lib, old(View()), old(pos), t) && pos == r.next
    {
      hide F.ReadUint, F.ReadString, F.ShowFixed;
      if F.FixedSize(t) > 0 {
        var n := ReadUint(F.FixedSize(t));
        r := if n.Err? then F.Err(n.error, n.next) else F.Ok(F.Plain(t, F.ShowFixed(lib, t, n.value)), pos);
      } else if t == 8 {
        var s := ReadString();
        r := if s.Err? then F.Err(s.error, s.next)
            else F.Ok(F.Value("string", s.value.text, s.value.truncated, 0, true), pos);
      } else {
        r := F.Err(F.UnsupportedType, pos);
      }
    }

    method SkipElement(t: nat) returns (r: F.Parse<()>)
      requires Valid()
      modifies this`pos, this`consumed
      ensures Advanced() && r == F.SkipElement(old(View()), old(pos), t) && pos == r.next
    {
      hide F.Skip, F.SkipString;
      if F.FixedSize(t) > 0 {
        r := SkipBytes(F.FixedSize(t));
      } else if t == 8 {
        r := SkipString();
      } else {
        r := F.Err(F.UnsupportedType, pos);
      }
    }

    method SkipElements(t: nat, n: nat) returns (r: F.Parse<()>)
      requires Valid()
      modifies this`pos, this`consumed, this`iterations
      ensures Advanced() && r == F.SkipElements(old(View()), old(pos), t, n) && pos == r.next
    {
      hide F.SkipElement;
      ghost var src := View();
      for i := 0 to n
        invariant Advanced()
        invariant F.SkipElements(src, pos, t, n - i) == F.SkipElements(src, old(pos), t, n)
      {
        r := SkipElement(t);
        if r.Err? { return; }
        iterations := iterations + 1;
      }
      r := F.Ok((), pos);
    }

    ghost function Prepend(vs: seq<F.Value>, r: F.Parse<seq<F.Value>>): F.Parse<seq<F.Value>> {
      if r.Ok? then F.Ok(vs + r.value, r.next) else r
    }

    lemma PrependNothing(r: F.Parse<seq<F.Value>>)
      ensures Prepend([], r) == r
    {
      if r.Ok? {
        assert [] + r.value == r.value;
      }
    }

    method ReadElements(lib: F.Library, t: nat, n: nat) returns (r: F.Parse<seq<F.Value>>)
      requires Valid()
      modifies this`pos, this`consumed, this`iterations
      ensures Advanced() && r == F.ReadElements(lib, old(View()), old(pos), t, n) && pos == r.next
    {
      hide F.ReadScalar;
      ghost var src := View();
      var vs: seq<F.Value> := [];
      PrependNothing(F.ReadElements(lib, src, pos, t, n));
      for i := 0 to n
        invariant Advanced()
        invariant Prepend(vs, F.ReadElements(lib, src, pos, t, n - i)) == F.ReadElements(lib, src, old(pos), t, n)
      {
        var v := ReadScalar(lib, t);
        if v.Err? { return F.Err(v.error, v.next); }
        ghost var rest := F.ReadElements(lib, src, pos, t, n - i - 1);
        if rest.Ok? {
          assert vs + ([v.value] + rest.value) == vs + [v.value] + rest.value;
        }
        vs := vs + [v.value];
        iterations := iterations + 1;
      }
      assert vs + [] == vs;
      r := F.Ok(vs, pos);
    }

    method SkipRemainder(t: nat, n: nat) returns (r: F.Parse<()>)
      requires Valid() && n <= F.MAX_ARRAY_COUNT
      modifies this`pos, this`consumed, this`iterations
      ensures Advanced() && r == F.SkipRemainder(old(View()), old(pos), t, n) && pos == r.next
    {
      hide F.Skip, F.SkipElements;
      if F.FixedSize(t) > 0 {
        // no overflow: the source checks against the largest int64 before it multiplies
        assert n * F.FixedSize(t) <= F.MAX_INT64;
        r := SkipBytes(n * F.FixedSize(t));
      } else {
        r := SkipElements(t, n);
      }
    }

    method ReadArrayHeader() returns (r: F.Parse<(nat, nat)>)
      requires Valid()
      modifies this`pos, this`consumed
      ensures Advanced() && r == F.ReadArrayHeader(old(View()), old(pos)) && pos == r.next
    {
      hide F.ReadUint;
      var t := ReadUint(4);
      if t.Err? { return F.Err(t.error, t.next); }
      var n := ReadUint(8);
      if n.Err? { return F.Err(n.error, n.next); }
      if n.value > F.MAX_ARRAY_COUNT { return F.Err(F.UnreasonableArray, pos); }
      if t.value == 9 { return F.Err(F.NestedArray, pos); }
      r := F.Ok((t.value, n.value), pos);
    }

    method ReadArray(lib: F.Library) returns (r: F.Parse<F.Value>)
      requires Valid()
      modifies this`pos, this`consumed, this`iterations
      ensures Advanced() && r == F.ReadArray(lib, old(View()), old(pos)) && pos == r.next
    {
      hide F.ReadArrayHeader, F.ReadElements, F.SkipRemainder, F.ShowArray, F.ElementTexts, F.AnyTruncated, F.Skip;
      var header := ReadArrayHeader();
      if header.Err? { return F.Err(header.error, header.next); }
      var (t, n) := header.value;
      if !F.ElementType(t) { return F.Err(F.UnsupportedType, pos); }
      var shown := F.Min(n, F.MAX_ARRAY_PREVIEW);
      var vs := ReadElements(lib, t, shown);
      if vs.Err? { return F.Err(vs.error, vs.next); }
      var s := SkipRemainder(t, n - shown);
      if s.Err? { return F.Err(s.error, s.next); }
      r := F.Ok(F.Value("array<" + F.TypeName(t) + ">", F.ShowArray(F.ElementTexts(lib, t, vs.value), n),
                        n > shown || F.AnyTruncated(vs.value), n, false), pos);
    }

    method ReadValue(lib: F.Library, t: nat) returns (r: F.Parse<F.Value>)
      requires Valid()
      modifies this`pos, this`consumed, this`iterations
      ensures Advanced() && r == F.ReadValue(lib, old(View()), old(pos), t) && pos == r.next
    {
      hide F.ReadArray, F.ReadScalar;
      if t == 9 { r := ReadArray(lib); } else { r := ReadScalar(lib, t); }
    }

    method SkipValue(t: nat) returns (r: F.Parse<()>)
      requires Valid()
      modifies this`pos, this`consumed, this`iterations
      ensures Advanced() && r == F.SkipValue(old(View()), old(pos), t) && pos == r.next
    {
      hide F.ReadArrayHeader, F.SkipElement, F.SkipElements, F.Skip;
      if t != 9 {
        r := SkipElement(t);
        return;
      }
      var header := ReadArrayHeader();
      if header.Err? { return F.Err(header.error, header.next); }
      var (et, n) := header.value;
      if F.FixedSize(et) > 0 {
        assert n * F.FixedSize(et) <= F.MAX_INT64;
        r := SkipBytes(n * F.FixedSize(et));
      } else if et == 8 {
        r := SkipElements(8, n);
      } else {
        r := F.Err(F.UnsupportedType, pos);
      }
    }

    // ----- the entry loops ---------------------------------------------------------------------

    // Like Advanced, for the loops that also charge the retained budget.
    twostate predicate Walked()
      requires old(Valid())
      reads this
    {
      && Valid() && bounded == old(bounded)
      && old(pos) <= pos
      && consumed == (if bounded then old(consumed) + (pos - old(pos)) else old(consumed))
      && View() == old(View())
      && old(iterations) <= iterations <= old(iterations) + (pos - old(pos))
    }

    method InspectEntry(lib: F.Library, kept: F.Kept) returns (r: F.Parse<F.Kept>)
      requires Valid() && retained == kept.retained
      modifies this
      ensures Walked() && r == F.InspectEntry(lib, old(View()), old(pos), kept) && pos == r.next
      ensures r.Ok? ==> retained == r.value.retained
    {
      hide F.ReadKey, F.ReadUint, F.ReadValue;
      var key := ReadKey();
      if key.Err? { return F.Err(key.error, key.next); }
      var t := ReadUint(4);
      if t.Err? { return F.Err(t.error, t.next); }
      var v := ReadValue(lib, t.value);
      if v.Err? { return F.Err(v.error, v.next); }
      var fits := AddRetained(|key.value| + |v.value.display|);
      if !fits { return F.Err(F.BudgetExceeded, pos); }
      iterations := iterations + 1;
      r := F.Ok(F.Keep(kept, key.value, v.value), pos);
    }

    method InspectSection(lib: F.Library, n: nat) returns (r: F.Parse<F.Kept>)
      requires Valid() && retained == 0
      modifies this
      ensures Walked() && r == F.InspectWalk(lib, old(View()), old(pos), n, F.Kept([], map[], 0)) && pos == r.next
      ensures r.Ok? ==> retained == r.value.retained
    {
      hide F.InspectEntry;
      ghost var src := View();
      var kept := F.Kept([], map[], 0);
      for i := 0 to n
        invariant Walked() && retained == kept.retained
        invariant F.InspectWalk(lib, src, pos, n - i, kept) ==
            F.InspectWalk(lib, src, old(pos), n, F.Kept([], map[], 0))
      {
        r := InspectEntry(lib, kept);
        if r.Err? { return; }
        kept := r.value;
      }
      r := F.Ok(kept, pos);
    }

    method SummaryEntry(lib: F.Library, picked: F.Picked) returns (r: F.Parse<F.Picked>)
      requires Valid() && retained == picked.retained
      modifies this
      ensures Walked() && r == F.SummaryEntry(lib, old(View()), old(pos), picked) && pos == r.next
      ensures r.Ok? ==> retained == r.value.retained
    {
      hide F.ReadKey, F.ReadUint, F.ReadValue, F.SkipValue, F.SummaryKey;
      var key := ReadKey();
      if key.Err? { return F.Err(key.error, key.next); }
      var fits := AddRetained(|key.value|);
      if !fits { return F.Err(F.BudgetExceeded, pos); }
      var t := ReadUint(4);
      if t.Err? { return F.Err(t.error, t.next); }
      if F.SummaryKey(key.value) {
        var v := ReadValue(lib, t.value);
        if v.Err? { return F.Err(v.error, v.next); }
        fits := AddRetained(|v.value.display|);
        if !fits { return F.Err(F.BudgetExceeded, pos); }
        r := F.Ok(F.Pick(picked, key.value, v.value), pos);
      } else {
        var s := SkipValue(t.value);
        if s.Err? { return F.Err(s.error, s.next); }
        r := F.Ok(F.Pass(picked, key.value), pos);
      }
      iterations := iterations + 1;
    }

    method SummarySection(lib: F.Library, n: nat) returns (r: F.Parse<F.Picked>)
      requires Valid() && retained == 0
      modifies this
      ensures Walked() && r == F.SummaryWalk(lib, old(View()), old(pos), n, F.Picked(map[], 0)) && pos == r.next
      ensures r.Ok? ==> retained == r.value.retained
    {
      hide F.SummaryEntry;
      ghost var src := View();
      var picked := F.Picked(map[], 0);
      for i := 0 to n
        invariant Walked() && retained == picked.retained
        invariant F.SummaryWalk(lib, src, pos, n - i, picked) ==
            F.SummaryWalk(lib, src, old(pos), n, F.Picked(map[], 0))
      {
        r := SummaryEntry(lib, picked);
        if r.Err? { return; }
        picked := r.value;
      }
      r := F.Ok(picked, pos);
    }

    method DerivedEntry(lib: F.Library, picked: F.Picked) returns (r: F.Parse<F.Picked>)
      requires Valid() && retained == picked.retained
      modifies this
      ensures Walked() && r == F.DerivedEntry(lib, old(View()), old(pos), picked) && pos == r.next
      ensures r.Ok? ==> retained == r.value.retained
    {
      hide F.ReadKey, F.ReadUint, F.ReadValue;
      var key := ReadKey();
      if key.Err? { return F.Err(key.error, key.next); }
      var fits := AddRetained(|key.value|);
      if !fits { return F.Err(F.BudgetExceeded, pos); }
      var t := ReadUint(4);
      if t.Err? { return F.Err(t.error, t.next); }
      var v := ReadValue(lib, t.value);
      if v.Err? { return F.Err(v.error, v.next); }
      if v.value.scalar {
        fits := AddRetained(|v.value.display|);
        if !fits { return F.Err(F.BudgetExceeded, pos); }
        r := F.Ok(F.Pick(picked, key.value, v.value), pos);
      } else {
        r := F.Ok(F.Pass(picked, key.value), pos);
      }
      iterations := iterations + 1;
    }

    method DerivedSection(lib: F.Library, n: nat) returns (r: F.Partial)
      requires Valid() && retained == 0
      modifies this
      ensures Walked() && r == F.DerivedWalk(lib, old(View()), old(pos), n, F.Picked(map[], 0)) && pos == r.next
    {
      hide F.DerivedEntry;
      ghost var src := View();
      var picked := F.Picked(map[], 0);
      for i := 0 to n
        invariant Walked() && retained == picked.retained
        invariant F.DerivedWalk(lib, src, pos, n - i, picked) ==
            F.DerivedWalk(lib, src, old(pos), n, F.Picked(map[], 0))
      {
        var next := DerivedEntry(lib, picked);
        if next.Err? { return F.Partial(picked.values, Some(next.error), pos); }
        picked := next.value;
      }
      r := F.Partial(picked.values, None, pos);
    }

    // ----- whole files ---------------------------------------------------------------------------

    method ReadHeader() returns (r: F.Parse<F.Header>)
      requires Valid() && pos == 0 && !bounded
      modifies this`pos, this`consumed
      ensures Advanced() && r == F.ReadHeader(data) && pos == r.next
    {
      hide F.ReadUint;
      var magic := ReadFull(4);
      if magic.Err? { return F.Err(magic.error, magic.next); }
      if magic.value != "GGUF" { return F.Err(F.InvalidMagic, pos); }
      var version := ReadUint(4);
      if version.Err? { return F.Err(version.error, version.next); }
      if version.value < 2 || version.value > 3 { return F.Err(F.UnsupportedVersion, pos); }
      var tensors := ReadUint(8);
      if tensors.Err? { return F.Err(tensors.error, tensors.next); }
      var count := ReadUint(8);
      if count.Err? { return F.Err(count.error, count.next); }
      if count.value > F.MAX_METADATA_COUNT { return F.Err(F.UnreasonableCount, pos); }
      r := F.Ok(F.Header(version.value, tensors.value, count.value), pos);
    }

    // boundMetadataReader: from here on both budgets start at zero.
    method Bound()
      requires Valid()
      modifies this`bounded, this`consumed, this`retained
      ensures Valid() && bounded && consumed == 0 && retained == 0 && View() == F.Reachable(data, pos)
    {
      bounded, consumed, retained := true, 0, 0;
    }

    method SkipDimensions(n: nat) returns (r: F.Parse<()>)
      requires Valid()
      modifies this`pos, this`consumed, this`iterations
      ensures Advanced() && r == F.SkipDimensions(old(View()), old(pos), n) && pos == r.next
    {
      hide F.ReadUint;
      ghost var src := View();
      for i := 0 to n
        invariant Advanced()
        invariant F.SkipDimensions(src, pos, n - i) == F.SkipDimensions(src, old(pos), n)
      {
        var d := ReadUint(8);
        if d.Err? { return F.Err(d.error, d.next); }
        iterations := iterations + 1;
      }
      r := F.Ok((), pos);
    }

    method ReadTensor() returns (r: F.Parse<string>)
      requires Valid()
      modifies this`pos, this`consumed, this`iterations
      ensures Advanced() && r == F.ReadTensor(old(View()), old(pos)) && pos == r.next
    {
      hide F.ReadUint, F.ReadString, F.SkipDimensions;
      var name := ReadString();
      if name.Err? { return F.Err(name.error, name.next); }
      var dimensions := ReadUint(4);
      if dimensions.Err? { return F.Err(dimensions.error, dimensions.next); }
      if dimensions.value > F.MAX_TENSOR_DIMENSIONS { return F.Err(F.UnreasonableDimensions, pos); }
      var s := SkipDimensions(dimensions.value);
      if s.Err? { return F.Err(s.error, s.next); }
      var kind := ReadUint(4);
      if kind.Err? { return F.Err(kind.error, kind.next); }
      var offset := ReadUint(8);
      if offset.Err? { return F.Err(offset.error, offset.next); }
      r := F.Ok(name.value.text, pos);
    }

    method TensorPrefixPresent(n: nat, prefix: string) returns (r: F.Parse<bool>)
      requires Valid()
      modifies this`pos, this`consumed, this`iterations
      ensures Advanced() && r == F.TensorPrefixPresent(old(View()), old(pos), n, prefix) && pos == r.next
    {
      hide F.ReadTensor;
      ghost var src := View();
      for i := 0 to n
        invariant Advanced()
        invariant F.TensorPrefixPresent(src, pos, n - i, prefix) == F.TensorPrefixPresent(src, old(pos), n, prefix)
      {
        var name := ReadTensor();
        if name.Err? { return F.Err(name.error, name.next); }
        if HasPrefix(name.value, prefix) { return F.Ok(true, pos); }
      }
      r := F.Ok(false, pos);
    }

    method RefineFeatures(tensorCount: nat, features: F.Features) returns (r: F.Parse<F.Features>)
      requires Valid() && !bounded
      modifies this`pos, this`consumed, this`iterations
      ensures Advanced() && r == F.RefineFeatures(data, old(pos), tensorCount, features) && pos == r.next
    {
      hide F.TensorPrefixPresent;
      if features.hasMTP && !features.mtpOnly {
        var trunk := TensorPrefixPresent(tensorCount, "blk.0.");
        if trunk.Err? { return F.Err(trunk.error, trunk.next); }
        return F.Ok(features.(mtpOnly := !trunk.value), pos);
      }
      r := F.Ok(features, pos);
    }

    // Whatever counts and lengths the file declares: the section budget was charged exactly the distance the
    // reader moved in the metadata section, and no more rounds of entries and elements than bytes were made.
    twostate predicate WithinBudgets(distance: int)
      reads this
    {
      && consumed == distance <= F.MAX_SECTION_BYTES && retained <= F.MAX_RETAINED_BYTES
      && iterations - old(iterations) <= pos - old(pos)
    }

    method Inspect(lib: F.Library) returns (r: F.Parse<F.Inspection>)
      requires Valid() && pos == 0 && !bounded
      modifies this
      ensures Valid() && r == F.Inspect(lib, data) && pos == r.next
      ensures var h := F.ReadHeader(data);
        WithinBudgets(if h.Ok? then F.InspectWalk(lib, F.Reachable(data, h.next), h.next, h.value.metadataCount,
            F.Kept([], map[], 0)).next - h.next else old(consumed))
    {
      hide F.ReadHeader, F.Reachable, F.InspectWalk, F.Derive, F.SummaryFeatures, F.RefineFeatures, F.SortByKey;
      var header := ReadHeader();
      if header.Err? { return F.Err(header.error, header.next); }
      Bound();
      var kept := InspectSection(lib, header.value.metadataCount);
      if kept.Err? { return F.Err(kept.error, kept.next); }
      bounded := false;
      var derived := F.Derive(kept.value.scalars);
      var features := RefineFeatures(header.value.tensorCount, F.SummaryFeatures(lib, derived, kept.value.scalars));
      if features.Err? { return F.Err(features.error, features.next); }
      r := F.Ok(F.Inspection(header.value, F.SortByKey(kept.value.entries), derived, features.value), pos);
    }

    method ReadSummary(lib: F.Library) returns (r: F.Parse<F.Summary>)
      requires Valid() && pos == 0 && !bounded
      modifies this
      ensures Valid() && r == F.ReadSummary(lib, data) && pos == r.next
      ensures var h := F.ReadHeader(data);
        WithinBudgets(if h.Ok? then F.SummaryWalk(lib, F.Reachable(data, h.next), h.next, h.value.metadataCount,
            F.Picked(map[], 0)).next - h.next else old(consumed))
    {
      hide F.ReadHeader, F.Reachable, F.SummaryWalk, F.Derive, F.SummaryFeatures, F.RefineFeatures;
      var header := ReadHeader();
      if header.Err? { return F.Err(header.error, header.next); }
      Bound();
      var picked := SummarySection(lib, header.value.metadataCount);
      if picked.Err? { return F.Err(picked.error, picked.next); }
      bounded := false;
      var derived := F.Derive(picked.value.values);
      var features := RefineFeatures(header.value.tensorCount, F.SummaryFeatures(lib, derived, picked.value.values));
      if features.Err? { return F.Err(features.error, features.next); }
      r := F.Ok(F.Summary(header.value, derived, features.value), pos);
    }

    method InspectDerived(lib: F.Library) returns (r: F.DerivedResult)
      requires Valid() && pos == 0 && !bounded
      modifies this
      ensures Valid() && r == F.InspectDerived(lib, data) && pos == r.next
      ensures var h := F.ReadHeader(data);
        WithinBudgets(if h.Ok? then F.DerivedWalk(lib, F.Reachable(data, h.next), h.next, h.value.metadataCount,
            F.Picked(map[], 0)).next - h.next else old(consumed))
    {
      hide F.ReadHeader, F.Reachable, F.DerivedWalk, F.DerivedOutcome, F.CoreReady, F.Derive;
      var header := ReadHeader();
      if header.Err? { return F.DerivedResult(F.NO_DERIVED, Some(header.error), pos); }
      Bound();
      var walk := DerivedSection(lib, header.value.metadataCount);
      r := F.DerivedOutcome(walk);
      assert r.next == walk.next by { DerivedOutcomeNext(walk); }
    }

    lemma DerivedOutcomeNext(walk: F.Partial)
      ensures F.DerivedOutcome(walk).next == walk.next
    {
    }

    // ----- pages -----------------------------------------------------------------------------------

    method ReadStringPage(offset: nat, limit: nat) returns (r: F.Parse<F.Page>)
      requires Valid()
      modifies this`pos, this`consumed
      ensures Advanced() && r == F.ReadStringPage(old(View()), old(pos), offset, limit) && pos == r.next
    {
      hide F.ReadUint;
      var total := ReadUint(8);
      if total.Err? { return F.Err(total.error, total.next); }
      if total.value > F.MAX_STRING_BYTES { return F.Err(F.UnreasonableString, pos); }
      var first := if offset > total.value then total.value else offset;
      var size := F.PageLimit(limit, F.MAX_PAGE_STRING_BYTES);
      var s := SkipBytes(first);
      if s.Err? { return F.Err(s.error, s.next); }
      var b := ReadFull(F.Min(size, total.value - first));
      if b.Err? { return F.Err(b.error, b.next); }
      r := F.Ok(F.Page("string", b.value, [], first, size, total.value, first + |b.value| < total.value), pos);
    }

    method ReadArrayPage(lib: F.Library, offset: nat, limit: nat) returns (r: F.Parse<F.Page>)
      requires Valid()
      modifies this`pos, this`consumed, this`iterations
      ensures Advanced() && r == F.ReadArrayPage(lib, old(View()), old(pos), offset, limit) && pos == r.next
    {
      hide F.ReadArrayHeader, F.SkipElements, F.ReadElements, F.ElementTexts;
      var header := ReadArrayHeader();
      if header.Err? { return F.Err(header.error, header.next); }
      var (t, total) := header.value;
      if !F.ElementType(t) { return F.Err(F.UnsupportedType, pos); }
      var first := if offset > total then total else offset;
      var size := F.PageLimit(limit, F.MAX_PAGE_ITEMS);
      var s := SkipElements(t, first);
      if s.Err? { return F.Err(s.error, s.next); }
      var vs := ReadElements(lib, t, F.Min(size, total - first));
      if vs.Err? { return F.Err(vs.error, vs.next); }
      r := F.Ok(F.Page("array<" + F.TypeName(t) + ">", "", F.ElementTexts(lib, t, vs.value), first, size, total,
                       first + |vs.value| < total), pos);
    }

    method ReadPage(lib: F.Library, t: nat, offset: nat, limit: nat) returns (r: F.Parse<F.Page>)
      requires Valid()
      modifies this`pos, this`consumed, this`iterations
      ensures Advanced() && r == F.ReadPage(lib, old(View()), old(pos), t, offset, limit) && pos == r.next
    {
      hide F.ReadStringPage, F.ReadArrayPage, F.ReadValue;
      if t == 8 {
        r := ReadStringPage(offset, limit);
      } else if t == 9 {
        r := ReadArrayPage(lib, offset, limit);
      } else {
        var v := ReadValue(lib, t);
        if v.Err? { return F.Err(v.error, v.next); }
        r := F.Ok(F.Page(v.value.typeName, v.value.display, [], 0, 1, 1, false), pos);
      }
    }

    // The page's value and its items are charged one after the other.
    method RetainPage(page: F.Page) returns (ok: bool)
      requires Valid()
      modifies this`retained
      ensures Valid() && ok == F.Fits(old(retained), |page.value| + F.TotalLength(page.items))
    {
      ok := AddRetained(|page.value|);
      if !ok { return; }
      var items := page.items;
      assert items[0..] == items;
      for i := 0 to |items|
        invariant Valid() && retained + F.TotalLength(items[i..]) == old(retained) + |page.value| + F.TotalLength(items)
      {
        assert items[i..][0] == items[i] && items[i..][1..] == items[i + 1..];
        ok := AddRetained(|items[i]|);
        if !ok { return; }
      }
      ok := true;
    }

    // The page of the value at the stream's position, charged to the retained budget.
    method ReadRetainedPage(lib: F.Library, t: nat, offset: nat, limit: nat) returns (r: F.Parse<F.Page>)
      requires Valid()
      modifies this
      ensures Walked() && pos == r.next
      ensures var page := F.ReadPage(lib, old(View()), old(pos), t, offset, limit);
        r == if page.Ok? && !F.Fits(old(retained), |page.value.value| + F.TotalLength(page.value.items))
             then F.Err(F.BudgetExceeded, page.next) else page
    {
      hide F.ReadPage, F.TotalLength;
      r := ReadPage(lib, t, offset, limit);
      if r.Err? { return; }
      var fits := RetainPage(r.value);
      if !fits { return F.Err(F.BudgetExceeded, pos); }
    }

    // The scan for the key: skipped entries are charged for their keys, the page for its content.
    method PageSection(lib: F.Library, n: nat, key: string, offset: nat, limit: nat) returns (r: F.Parse<F.Page>)
      requires Valid() && retained == 0
      modifies this
      ensures Walked() && r == F.PageWalk(lib, old(View()), old(pos), n, key, 0, offset, limit) && pos == r.next
    {
      hide F.ReadKey, F.ReadU32, F.ReadUint, F.ReadPage, F.SkipValue, F.TotalLength, F.PageWalk;
      ghost var src := View();
      PageWalkEnds(lib, src, pos, key, retained, offset, limit);
      for i := 0 to n
        invariant Walked()
        invariant F.PageWalk(lib, src, pos, n - i, key, retained, offset, limit) ==
            F.PageWalk(lib, src, old(pos), n, key, 0, offset, limit)
      {
        PageWalkGoesOn(lib, src, pos, n - i, key, retained, offset, limit);
        var candidate := ReadKey();
        if candidate.Err? { return F.Err(candidate.error, candidate.next); }
        var fits := AddRetained(|candidate.value|);
        if !fits { return F.Err(F.BudgetExceeded, pos); }
        var t := ReadUint(4);
        if t.Err? { return F.Err(t.error, t.next); }
        if candidate.value == key {
          r := ReadRetainedPage(lib, t.value, offset, limit);
          return;
        }
        var s := SkipValue(t.value);
        if s.Err? { return F.Err(s.error, s.next); }
        iterations := iterations + 1;
      }
      PageWalkEnds(lib, src, pos, key, retained, offset, limit);
      r := F.Err(F.KeyNotFound, pos);
    }

    method ReadValuePage(lib: F.Library, name: string, offset: nat, limit: nat) returns (r: F.Parse<F.Page>)
      requires Valid() && pos == 0 && !bounded
      modifies this
      ensures Valid() && r == F.ReadValuePage(lib, data, name, offset, limit) && pos == r.next
      ensures var h, key := F.ReadHeader(data), TrimSpace(name);
        WithinBudgets(if key != ""
            && h.Ok? then F.PageWalk(lib, F.Reachable(data, h.next), h.next, h.value.metadataCount, key, 0, offset,
            limit).next - h.next
                      else old(consumed))
    {
      hide F.ReadHeader, F.Reachable, F.PageWalk, TrimSpace;
      var key := TrimSpace(name);
      if key == "" { return F.Err(F.KeyRequired, pos); }
      var header := ReadHeader();
      if header.Err? { return F.Err(header.error, header.next); }
      Bound();
      r := PageSection(lib, header.value.metadataCount, key, offset, limit);
    }
  }

  lemma PageWalkEnds(lib: F.Library, src: F.Source, pos: nat, key: string, retained: nat, offset: nat, limit: nat)
    requires pos <= |src.data|
    ensures F.PageWalk(lib, src, pos, 0, key, retained, offset, limit) == F.Err(F.KeyNotFound, pos)
  {
  }

  // The scan reads a key, charges it, and returns the page or skips the value.
  lemma {:induction false} PageWalkGoesOn(lib: F.Library, src: F.Source, pos: nat, n: nat, key: string, retained: nat,
      offset: nat, limit: nat)
    requires pos <= |src.data| && n > 0
    ensures var walk, k := F.PageWalk(lib, src, pos, n, key, retained, offset, limit), F.ReadKey(src, pos);
      if k.Err? then walk == F.Err(k.error, k.next)
      else if !F.Fits(retained, |k.value|) then walk == F.Err(F.BudgetExceeded, k.next)
      else
        var t := F.ReadUint(src, k.next, 4);
        if t.Err? then walk == F.Err(t.error, t.next)
        else if k.value == key then
          var page := F.ReadPage(lib, src, t.next, t.value, offset, limit);
          walk == if page.Ok? && !F.Fits(retained + |k.value|, |page.value.value| + F.TotalLength(page.value.items))
                  then F.Err(F.BudgetExceeded, page.next) else page
        else
          var s := F.SkipValue(src, t.next, t.value);
          walk == if s.Err? then F.Err(s.error, s.next)
                  else F.PageWalk(lib, src, s.next, n - 1, key, retained + |k.value|, offset, limit)
  {
    hide F.ReadKey, F.ReadUint, F.ReadPage, F.SkipValue, F.TotalLength;
  }
}
