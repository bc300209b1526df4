/**
  CSV rows as the generators build them: Python dictionaries from column name to
  cell value.  A dictionary keeps its keys in insertion order, and that order
  becomes the column order of the written file, so a row is an ordered sequence
  of (column, value) pairs with distinct columns.  `Set` is `row[key] = value`:
  it overwrites an existing key where it stands and appends a new one.
 */
module Rows {
  import opened Text

  datatype Option<T> = None | Some(value: T)

  /** A generator either produces its rows or raises `ValueError` with a message. */
  datatype Result<T> = Ok(value: T) | Err(msg: string)

  /** A cell: text, an integer (also used for day offsets and amounts in cents) or a boolean. */
  datatype Value = Str(s: string) | Int(i: int) | Bool(b: bool)

  /** The empty cell `""`. */
  const Blank: Value := Str("")

  type Row = seq<(string, Value)>

  function Keys(row: Row): (ks: seq<string>)
    ensures |ks| == |row|
    ensures forall i :: 0 <= i < |row| ==> ks[i] == row[i].0
  {
    if row == [] then [] else [row[0].0] + Keys(row[1..])
  }

  /** The cells of a row in key order (`list(row.values())`). */
  function Values(row: Row): (vs: seq<Value>)
    ensures |vs| == |row|
    ensures forall i :: 0 <= i < |row| ==> vs[i] == row[i].1
  {
    seq(|row|, i requires 0 <= i < |row| => row[i].1)
  }

  predicate DistinctKeys(row: Row) {
    Distinct(Keys(row))
  }

  /** `row.get(key)`: the value stored under `key`, if any. */
  function Get(row: Row, k: string): (v: Option<Value>)
    ensures v.None? <==> k !in Keys(row)
  {
    if row == [] then None
    else if row[0].0 == k then Some(row[0].1)
    else
      Get(row[1..], k)
  }

  /** In a row with distinct keys, the value found under the key at position `i` is the one stored there. */
  lemma {:induction false} GetAt(row: Row, i: nat)
    requires DistinctKeys(row) && i < |row|
    ensures Get(row, row[i].0) == Some(row[i].1)
  {
    if i > 0 {
      GetAt(row[1..], i - 1);
    }
  }

  /** `row[k] = v`. */
  function Set(row: Row, k: string, v: Value): (r: Row)
    ensures Get(r, k) == Some(v)
    ensures forall k' :: k' != k ==> Get(r, k') == Get(row, k')
    ensures k in Keys(row) ==> Keys(r) == Keys(row)
    ensures k !in Keys(row) ==> Keys(r) == Keys(row) + [k]
  {
    if row == [] then [(k, v)]
    else if row[0].0 == k then
      ConsKeys((k, v), row[1..]);
      ConsGet((k, v), row[1..]);
      [(k, v)] + row[1..]
    else
      var tail := Set(row[1..], k, v);
      ConsKeys(row[0], tail);
      ConsGet(row[0], tail);
      Assoc([row[0].0], Keys(row[1..]), [k]);
      [row[0]] + tail
  }

  lemma Assoc<T>(a: seq<T>, b: seq<T>, c: seq<T>)
    ensures a + (b + c) == (a + b) + c
  {
  }

  /** The keys of a row that starts with `x`. */
  lemma ConsKeys(x: (string, Value), row: Row)
    ensures Keys([x] + row) == [x.0] + Keys(row)
  {
    assert ([x] + row)[1..] == row;
  }

  /** Looking a key up in a row that starts with `x`. */
  lemma ConsGet(x: (string, Value), row: Row)
    ensures forall k :: Get([x] + row, k) == if x.0 == k then Some(x.1) else Get(row, k)
  {
    assert ([x] + row)[1..] == row;
  }

  lemma SetDistinct(row: Row, k: string, v: Value)
    requires DistinctKeys(row)
    ensures DistinctKeys(Set(row, k, v))
  {
    var r := Set(row, k, v);
    if k !in Keys(row) {
      DistinctConcat(Keys(row), [k]);
    }
  }

  /** With distinct keys, overwriting the key at position `i` changes that position only. */
  lemma {:induction false} SetAt(row: Row, i: nat, v: Value)
    requires DistinctKeys(row) && i < |row|
    ensures Set(row, row[i].0, v) == row[i := (row[i].0, v)]
  {
    var k := row[i].0;
    if i == 0 {
      assert Set(row, k, v) == [(k, v)] + row[1..];
    } else {
      var tail := row[1..];
      assert row[0].0 != k;
      assert DistinctKeys(tail) by {
        forall a, b | 0 <= a < b < |tail| ensures tail[a].0 != tail[b].0 {
          assert tail[a] == row[a + 1] && tail[b] == row[b + 1];
        }
      }
      assert tail[i - 1] == row[i];
      SetAt(tail, i - 1, v);
      assert Set(row, k, v) == [row[0]] + Set(tail, k, v);
      assert [row[0]] + tail[i - 1 := (k, v)] == row[i := (k, v)];
    }
  }

  /** `row.update(pairs)`: the pairs assigned one after another. */
  function Update(row: Row, pairs: seq<(string, Value)>): Row
    decreases |pairs|
  {
    if pairs == [] then row
    else Update(Set(row, pairs[0].0, pairs[0].1), pairs[1..])
  }

  /** After `update`, a key takes its last value among the pairs, or keeps its old value when no pair names it. */
  lemma {:induction false} GetUpdate(row: Row, pairs: seq<(string, Value)>, k: string)
    ensures Get(Update(row, pairs), k) ==
      if k in Keys(pairs) then Some(pairs[LastIndex(Keys(pairs), k)].1) else Get(row, k)
    decreases |pairs|
  {
    if pairs != [] {
      var rest := pairs[1..];
      assert Keys(pairs) == [pairs[0].0] + Keys(rest);
      GetUpdate(Set(row, pairs[0].0, pairs[0].1), rest, k);
      if k in Keys(rest) {
        assert LastIndex(Keys(pairs), k) == 1 + LastIndex(Keys(rest), k);
      }
    }
  }

  /** The position of the last occurrence of `x` in `xs`. */
  function LastIndex(xs: seq<string>, x: string): (i: nat)
    requires x in xs
    ensures i < |xs| && xs[i] == x
    ensures forall j :: i < j < |xs| ==> xs[j] != x
  {
    if xs[|xs| - 1] == x then |xs| - 1 else LastIndex(xs[..|xs| - 1], x)
  }

  /** Assigning a new key appends it at the end. */
  lemma {:induction false} SetAppend(row: Row, k: string, v: Value)
    requires k !in Keys(row)
    ensures Set(row, k, v) == row + [(k, v)]
  {
    if row != [] {
      assert row[0].0 != k;
      SetAppend(row[1..], k, v);
      assert Set(row, k, v) == [row[0]] + (row[1..] + [(k, v)]);
      assert row == [row[0]] + row[1..];
    }
  }

  lemma NextKeyIsNew(row: Row, pairs: seq<(string, Value)>)
    requires DistinctKeys(row + pairs) && pairs != []
    ensures pairs[0].0 !in Keys(row)
  {
    var all := row + pairs;
    forall i | 0 <= i < |row| ensures Keys(row)[i] != pairs[0].0 {
      assert all[i] == row[i] && all[|row|] == pairs[0];
    }
  }

  lemma SplitFirst<T>(a: seq<T>, b: seq<T>)
    requires b != []
    ensures a + b == (a + [b[0]]) + b[1..]
  {
  }

  lemma UnfoldFresh(row: Row, pairs: seq<(string, Value)>)
    requires pairs != [] && pairs[0].0 !in Keys(row)
    ensures Update(row, pairs) == Update(row + [pairs[0]], pairs[1..])
  {
    SetAppend(row, pairs[0].0, pairs[0].1);
  }

  /** Assigning keys the row does not have yet, all distinct, appends them in order. */
  lemma {:induction false} UpdateFresh(row: Row, pairs: seq<(string, Value)>)
    requires DistinctKeys(row + pairs)
    ensures Update(row, pairs) == row + pairs
    decreases |pairs|
  {
    if pairs != [] {
      NextKeyIsNew(row, pairs);
      UnfoldFresh(row, pairs);
      SplitFirst(row, pairs);
      UpdateFresh(row + [pairs[0]], pairs[1..]);
    }
  }

  /** Two `update` calls in a row are one `update` with the pairs of both. */
  lemma {:induction false} UpdateConcat(row: Row, a: Row, b: Row)
    ensures Update(Update(row, a), b) == Update(row, a + b)
    decreases |a|
  {
    if a == [] {
      assert a + b == b;
    } else {
      assert (a + b)[0] == a[0] && (a + b)[1..] == a[1..] + b;
      UpdateConcat(Set(row, a[0].0, a[0].1), a[1..], b);
    }
  }

  /** The assignment of the pair at position `i`, the next step of an `update`. */
  lemma UpdateAt(row: Row, pairs: Row, i: nat)
    requires i < |pairs|
    ensures Update(row, pairs[i..]) == Update(Set(row, pairs[i].0, pairs[i].1), pairs[i + 1..])
  {
    assert pairs[i..][1..] == pairs[i + 1..];
  }

  // ---------------------------------------------------------------------------
  // Dictionary literals

  predicate Distinct(ks: seq<string>) {
    forall i, j :: 0 <= i < j < |ks| ==> ks[i] != ks[j]
  }

  /** `n` empty cells. */
  function Blanks(n: nat): (r: seq<Value>)
    ensures |r| == n && forall i :: 0 <= i < n ==> r[i] == Blank
  {
    seq(n, i => Blank)
  }

  /** Column names spelled out from one prefix are distinct when their remainders are. */
  lemma PrefixedDistinct(p: string, xs: seq<string>)
    requires Distinct(xs)
    ensures Distinct(Prefixed(p, xs))
  {
    var r := Prefixed(p, xs);
    forall i, j | 0 <= i < j < |r| ensures r[i] != r[j] {
      if r[i] == r[j] {
        ConcatInjective(p, xs[i], xs[j]);
      }
    }
  }

  /** The dictionary literal `{ks[0]: vs[0], ks[1]: vs[1], ...}`. */
  function Dict(ks: seq<string>, vs: seq<Value>): (row: Row)
    requires |ks| == |vs|
    ensures |row| == |ks|
    ensures forall i :: 0 <= i < |ks| ==> row[i] == (ks[i], vs[i])
  {
    seq(|ks|, i requires 0 <= i < |ks| => (ks[i], vs[i]))
  }

  /** Without duplicates, every element occurs once. */
  lemma {:induction false} DistinctOnce(s: seq<string>, x: string)
    requires Distinct(s)
    ensures multiset(s)[x] <= 1
    decreases |s|
  {
    if s != [] {
      var t := s[1..];
      assert s == [s[0]] + t;
      assert Distinct(t) by {
        forall i, j | 0 <= i < j < |t| ensures t[i] != t[j] {
          assert t[i] == s[i + 1] && t[j] == s[j + 1];
        }
      }
      assert s[0] !in t by {
        forall j | 0 <= j < |t| ensures t[j] != s[0] {
          assert t[j] == s[j + 1];
        }
      }
      DistinctOnce(t, x);
    }
  }

  /** An element at two positions occurs twice. */
  lemma RepeatTwice(s: seq<string>, i: nat, j: nat)
    requires i < j < |s| && s[i] == s[j]
    ensures multiset(s)[s[i]] >= 2
  {
    var x := s[i];
    assert s == s[..i] + [x] + s[i + 1..j] + [x] + s[j + 1..];
  }

  /** Rearranging a sequence without duplicates leaves none. */
  lemma PermutationDistinct(a: seq<string>, b: seq<string>)
    requires Distinct(a) && multiset(a) == multiset(b)
    ensures Distinct(b)
  {
    forall i, j | 0 <= i < j < |b| ensures b[i] != b[j] {
      if b[i] == b[j] {
        RepeatTwice(b, i, j);
        DistinctOnce(a, b[i]);
      }
    }
  }

  lemma DistinctConcat(a: seq<string>, b: seq<string>)
    requires Distinct(a) && Distinct(b) && forall k :: k in b ==> k !in a
    ensures Distinct(a + b)
  {
    var ab := a + b;
    forall i, j | 0 <= i < j < |ab| ensures ab[i] != ab[j] {
      if j >= |a| {
        assert ab[j] == b[j - |a|] && b[j - |a|] in b;
        if i >= |a| {
          assert ab[i] == b[i - |a|];
        } else {
          assert ab[i] == a[i];
        }
      }
    }
  }

  lemma DictKeys(ks: seq<string>, vs: seq<Value>)
    requires |ks| == |vs| && Distinct(ks)
    ensures Keys(Dict(ks, vs)) == ks && DistinctKeys(Dict(ks, vs))
  {
  }

  /** In a literal with distinct keys, key `j` reads as value `j`. */
  lemma DictGet(ks: seq<string>, vs: seq<Value>, j: nat)
    requires |ks| == |vs| && Distinct(ks) && j < |ks|
    ensures Get(Dict(ks, vs), ks[j]) == Some(vs[j])
  {
    DictKeys(ks, vs);
    GetAt(Dict(ks, vs), j);
  }

  /** Assigning the next key of a literal, in order, extends the literal by that entry. */
  lemma DictStep(ks: seq<string>, vs: seq<Value>, m: nat)
    requires |ks| == |vs| && Distinct(ks) && m < |ks|
    ensures Set(Dict(ks[..m], vs[..m]), ks[m], vs[m]) == Dict(ks[..m + 1], vs[..m + 1])
  {
    DictKeys(ks[..m], vs[..m]);
    assert ks[m] !in ks[..m];
    SetAppend(Dict(ks[..m], vs[..m]), ks[m], vs[m]);
  }

  /** Assigning the next key of a literal after a row that lacks all its keys extends the literal by that entry. */
  lemma DictStepAfter(row: Row, ks: seq<string>, vs: seq<Value>, m: nat)
    requires |ks| == |vs| && Distinct(ks) && m < |ks|
    requires forall k :: k in ks ==> k !in Keys(row)
    ensures Set(row + Dict(ks[..m], vs[..m]), ks[m], vs[m]) == row + Dict(ks[..m + 1], vs[..m + 1])
  {
    var front := Dict(ks[..m], vs[..m]);
    var k := ks[m];
    assert k !in Keys(row + front) by {
      DictKeys(ks[..m], vs[..m]);
      KeysAppend(row, front);
      assert k in ks;
      assert k !in ks[..m];
    }
    SetAppend(row + front, k, vs[m]);
    DictSnoc(ks, vs, m);
  }

  /** The literal of one more entry is the shorter literal followed by that entry. */
  lemma DictSnoc(ks: seq<string>, vs: seq<Value>, m: nat)
    requires |ks| == |vs| && m < |ks|
    ensures Dict(ks[..m + 1], vs[..m + 1]) == Dict(ks[..m], vs[..m]) + [(ks[m], vs[m])]
  {
  }

  /** A row is the literal of its keys and its cells. */
  lemma RowAsDict(r: Row)
    ensures r == Dict(Keys(r), Values(r))
  {
  }

  /** Assigning an existing key of a literal replaces its value in place. */
  lemma DictSet(ks: seq<string>, vs: seq<Value>, j: nat, v: Value)
    requires |ks| == |vs| && Distinct(ks) && j < |ks|
    ensures Set(Dict(ks, vs), ks[j], v) == Dict(ks, vs[j := v])
  {
    DictKeys(ks, vs);
    SetAt(Dict(ks, vs), j, v);
  }

  /** Two literals that differ only at position `j` read the same under every other key. */
  lemma DictGetOther(ks: seq<string>, vs: seq<Value>, ws: seq<Value>, j: nat, k: string)
    requires |ks| == |vs| == |ws| && Distinct(ks) && j < |ks|
    requires ws == vs[j := ws[j]] && k != ks[j]
    ensures Get(Dict(ks, ws), k) == Get(Dict(ks, vs), k)
    ensures Keys(Dict(ks, ws)) == Keys(Dict(ks, vs))
  {
    DictSet(ks, vs, j, ws[j]);
    DictKeys(ks, vs);
    DictKeys(ks, ws);
  }

  /** `row.update(pairs)` with keys the row lacks, all distinct, appends the pairs. */
  lemma UpdateAppends(row: Row, pairs: Row)
    requires DistinctKeys(row) && DistinctKeys(pairs)
    requires forall k :: k in Keys(pairs) ==> k !in Keys(row)
    ensures Update(row, pairs) == row + pairs
    ensures Keys(Update(row, pairs)) == Keys(row) + Keys(pairs)
    ensures DistinctKeys(row + pairs)
  {
    DistinctConcat(Keys(row), Keys(pairs));
    DistinctAppend(row, pairs);
    UpdateFresh(row, pairs);
    KeysAppend(row, pairs);
  }

  /** Appending the same cells to two rows that agree on a key keeps them agreeing on it. */
  lemma AppendSame(a: Row, b: Row, tail: Row, k: string)
    requires Get(a, k) == Get(b, k) && Keys(a) == Keys(b)
    ensures Get(a + tail, k) == Get(b + tail, k)
    ensures Keys(a + tail) == Keys(b + tail)
  {
    GetAppend(a, tail, k);
    GetAppend(b, tail, k);
    KeysAppend(a, tail);
    KeysAppend(b, tail);
  }

  /** `vs` with the positions from `off` on replaced by `xs`. */
  function Splice<T>(vs: seq<T>, off: nat, xs: seq<T>): (r: seq<T>)
    requires off + |xs| <= |vs|
    ensures |r| == |vs|
  {
    vs[..off] + xs + vs[off + |xs|..]
  }

  /** Replacing an element of the right-hand part of a concatenation. */
  lemma UpdateRight<T>(a: seq<T>, b: seq<T>, j: nat, v: T)
    requires j < |b|
    ensures (a + b)[|a| + j := v] == a + b[j := v]
  {
  }

  /** A suffix of the right-hand part of a concatenation. */
  lemma ConcatSuffix<T>(a: seq<T>, b: seq<T>, i: nat)
    requires i <= |b|
    ensures (a + b)[|a| + i..] == b[i..]
  {
  }

  /** Splicing over everything after the first element of the right-hand part. */
  lemma SpliceTail<T>(a: seq<T>, x: T, ys: seq<T>, zs: seq<T>)
    requires |zs| == |ys|
    ensures Splice(a + ([x] + ys), |a| + 1, zs) == a + ([x] + zs)
  {
    var vs := a + ([x] + ys);
    assert vs[..|a| + 1] == a + [x];
    assert vs[|a| + 1 + |zs|..] == [];
  }

  lemma SpliceStep<T>(vs: seq<T>, off: nat, xs: seq<T>, ws: seq<T>, next: nat, rest: seq<T>)
    requires xs != [] && off + |xs| <= |vs|
    requires ws == vs[off := xs[0]] && next == off + 1 && rest == xs[1..]
    ensures next + |rest| <= |ws| && Splice(ws, next, rest) == Splice(vs, off, xs)
  {
    var front, back := vs[..off], vs[off + |xs|..];
    assert ws[..off + 1] == front + [xs[0]];
    assert ws[off + 1 + |xs[1..]|..] == back;
    assert (front + [xs[0]]) + xs[1..] == front + ([xs[0]] + xs[1..]);
    assert [xs[0]] + xs[1..] == xs;
  }

  /**
    `update` with keys that a literal already holds, in the literal's order,
    from position `off` on: the values are replaced where they stand.
   */
  lemma {:induction false} UpdateInPlace(ks: seq<string>, vs: seq<Value>, off: nat, lvs: seq<Value>)
    requires |ks| == |vs| && Distinct(ks) && off + |lvs| <= |ks|
    ensures Update(Dict(ks, vs), Dict(ks[off..off + |lvs|], lvs)) == Dict(ks, Splice(vs, off, lvs))
    decreases |lvs|
  {
    if lvs == [] {
      assert Splice(vs, off, lvs) == vs;
    } else {
      var ws := vs[off := lvs[0]];
      var next: nat, rest := off + 1, lvs[1..];
      UpdateStep(ks, vs, off, lvs, ws, next, rest);
      UpdateInPlace(ks, ws, next, rest);
      SpliceStep(vs, off, lvs, ws, next, rest);
    }
  }

  /**
    A template of header keys `hk` and line keys `lk`, every line value "":
    updating every line key after the first puts the values in place.
   */
  lemma UpdateLineTail(hk: seq<string>, lk: seq<string>, hv: seq<Value>, fv: seq<Value>)
    requires Distinct(hk + lk) && |hk| == |hv| && |lk| == |fv| + 1
    ensures Update(Dict(hk + lk, hv + Blanks(|lk|)), Dict(lk[1..], fv)) == Dict(hk + lk, hv + ([Blank] + fv))
  {
    var ks := hk + lk;
    var off := |hk| + 1;
    var vs := hv + ([Blank] + Blanks(|fv|));
    assert hv + Blanks(|lk|) == vs by {
      BlanksCons(|fv|);
    }
    assert ks[off..off + |fv|] == lk[1..] by {
      ConcatSuffix(hk, lk, 1);
      assert ks[off..off + |fv|] == ks[off..];
    }
    assert Splice(vs, off, fv) == hv + ([Blank] + fv) by {
      SpliceTail(hv, Blank, Blanks(|fv|), fv);
    }
    UpdateInPlace(ks, vs, off, fv);
  }

  lemma BlanksCons(n: nat)
    ensures Blanks(n + 1) == [Blank] + Blanks(n)
  {
  }

  /** The first assignment of such an `update` replaces the value at `off`. */
  lemma UpdateStep(ks: seq<string>, vs: seq<Value>, off: nat, lvs: seq<Value>,
                   ws: seq<Value>, next: nat, rest: seq<Value>)
    requires |ks| == |vs| && Distinct(ks) && lvs != [] && off + |lvs| <= |ks|
    requires ws == vs[off := lvs[0]] && next == off + 1 && rest == lvs[1..]
    ensures |ws| == |ks| && next + |rest| <= |ks|
    ensures Update(Dict(ks, vs), Dict(ks[off..off + |lvs|], lvs)) == Update(Dict(ks, ws), Dict(ks[next..next + |rest|], rest))
  {
    var lks := ks[off..off + |lvs|];
    var pairs := Dict(lks, lvs);
    assert pairs[0] == (ks[off], lvs[0]);
    assert lks[1..] == ks[next..next + |rest|];
    assert pairs[1..] == Dict(lks[1..], rest);
    DictSet(ks, vs, off, lvs[0]);
  }

  /** The value of the cell is a string among `xs`. */
  predicate IsStrIn(v: Option<Value>, xs: seq<string>) {
    v.Some? && v.value.Str? && v.value.s in xs
  }

  /** The cell holds a non-empty string. */
  predicate IsNonBlankStr(v: Option<Value>) {
    v.Some? && v.value.Str? && v.value.s != ""
  }

  lemma KeysAppend(a: Row, b: Row)
    ensures Keys(a + b) == Keys(a) + Keys(b)
  {
    var ka, kb, kab := Keys(a), Keys(b), Keys(a + b);
    forall i | 0 <= i < |kab| ensures kab[i] == (ka + kb)[i] {
      assert (a + b)[i] == if i < |a| then a[i] else b[i - |a|];
    }

  }

  lemma ValuesAppend(a: Row, b: Row)
    ensures Values(a + b) == Values(a) + Values(b)
  {
    assert forall i :: 0 <= i < |a + b| ==> (a + b)[i] == if i < |a| then a[i] else b[i - |a|];
  }

  lemma DictValues(ks: seq<string>, vs: seq<Value>)
    requires |ks| == |vs|
    ensures Values(Dict(ks, vs)) == vs
  {
  }

  /** Lookup in a concatenation: the first part wins. */
  lemma {:induction false} GetAppend(a: Row, b: Row, k: string)
    ensures Get(a + b, k) == if Get(a, k).Some? then Get(a, k) else Get(b, k)
  {
    if a == [] {
      assert a + b == b;
    } else {
      var t := a[1..] + b;
      GetAppend(a[1..], b, k);
      assert Get(a + b, k) == if a[0].0 == k then Some(a[0].1) else Get(t, k) by {
        assert a + b == [a[0]] + t;
        ConsGet(a[0], t);
      }
    }
  }

  /** `update` with four pairs: four assignments in order. */
  lemma UpdateFour(row: Row, m: Row)
    requires |m| == 4
    ensures Update(row, m) == Set(Set(Set(Set(row, m[0].0, m[0].1), m[1].0, m[1].1), m[2].0, m[2].1), m[3].0, m[3].1)
  {
    var r := row;
    assert m[0..] == m;
    UpdateAt(r, m, 0);
    r := Set(r, m[0].0, m[0].1);
    UpdateAt(r, m, 1);
    r := Set(r, m[1].0, m[1].1);
    UpdateAt(r, m, 2);
    r := Set(r, m[2].0, m[2].1);
    UpdateAt(r, m, 3);
    assert m[4..] == [];
  }

  /** `update` with seven pairs: the first four assignments, then three more. */
  lemma UpdateSeven(row: Row, m: Row)
    requires |m| == 7
    ensures Update(row, m) ==
      Set(Set(Set(Update(row, m[..4]), m[4].0, m[4].1), m[5].0, m[5].1), m[6].0, m[6].1)
  {
    assert m == m[..4] + m[4..];
    UpdateConcat(row, m[..4], m[4..]);
    var r := Update(row, m[..4]);
    var t := m[4..];
    assert t[0..] == t;
    UpdateAt(r, t, 0);
    r := Set(r, t[0].0, t[0].1);
    UpdateAt(r, t, 1);
    r := Set(r, t[1].0, t[1].1);
    UpdateAt(r, t, 2);
    assert t[3..] == [];
  }

  /** A key of the first part reads in the concatenation as in the first part. */
  lemma GetFirst(a: Row, b: Row, k: string)
    requires k in Keys(a)
    ensures Get(a + b, k) == Get(a, k) && k in Keys(a + b)
  {
    GetAppend(a, b, k);
    KeysAppend(a, b);
  }

  /** A key the second part lacks reads in the concatenation as in the first part. */
  lemma GetOver(a: Row, b: Row, k: string)
    requires k !in Keys(b)
    ensures Get(a + b, k) == Get(a, k)
  {
    GetAppend(a, b, k);
  }

  /** A key the first part lacks reads in the concatenation as in the second part. */
  lemma GetUnder(a: Row, b: Row, k: string)
    requires k !in Keys(a)
    ensures Get(a + b, k) == Get(b, k)
  {
    GetAppend(a, b, k);
  }

  lemma DistinctAppend(a: Row, b: Row)
    requires Distinct(Keys(a) + Keys(b))
    ensures DistinctKeys(a + b)
  {
    KeysAppend(a, b);
    var ks := Keys(a + b);
    forall i, j | 0 <= i < j < |a + b| ensures (a + b)[i].0 != (a + b)[j].0 {
      assert ks[i] == (a + b)[i].0 && ks[j] == (a + b)[j].0;
    }
  }

  // ---------------------------------------------------------------------------
  // Rows grouped by parent record

  /** The rows of consecutive parent records, appended one group after another. */
  function Flatten<T>(gs: seq<seq<T>>): seq<T> {
    if gs == [] then [] else Flatten(gs[..|gs| - 1]) + gs[|gs| - 1]
  }

  function TotalSize<T>(gs: seq<seq<T>>): nat {
    if gs == [] then 0 else TotalSize(gs[..|gs| - 1]) + |gs[|gs| - 1]|
  }

  lemma {:induction false} FlattenSize<T>(gs: seq<seq<T>>)
    ensures |Flatten(gs)| == TotalSize(gs)
  {
    if gs != [] {
      FlattenSize(gs[..|gs| - 1]);
    }
  }

  /** When every group has between `lo` and `hi` members, the total lies between `n*lo` and `n*hi`. */
  lemma {:induction false} FlattenBounds<T>(gs: seq<seq<T>>, lo: nat, hi: nat)
    requires forall i :: 0 <= i < |gs| ==> lo <= |gs[i]| <= hi
    ensures |gs| * lo <= |Flatten(gs)| <= |gs| * hi
  {
    FlattenSize(gs);
    TotalBounds(gs, lo, hi);
  }

  lemma {:induction false} TotalBounds<T>(gs: seq<seq<T>>, lo: nat, hi: nat)
    requires forall i :: 0 <= i < |gs| ==> lo <= |gs[i]| <= hi
    ensures |gs| * lo <= TotalSize(gs) <= |gs| * hi
  {
    if gs != [] {
      var front := gs[..|gs| - 1];
      assert forall i :: 0 <= i < |front| ==> front[i] == gs[i];
      TotalBounds(front, lo, hi);
      assert |gs| * lo == |front| * lo + lo;
      assert |gs| * hi == |front| * hi + hi;
    }
  }

  /** Group `i` occupies a contiguous slice of the flattened rows. */
  lemma {:induction false} FlattenSlice<T>(gs: seq<seq<T>>, i: nat)
    requires i < |gs|
    ensures TotalSize(gs[..i]) + |gs[i]| <= |Flatten(gs)|
    ensures Flatten(gs)[TotalSize(gs[..i])..TotalSize(gs[..i]) + |gs[i]|] == gs[i]
  {
    var n := |gs|;
    FlattenSize(gs);
    FlattenSize(gs[..n - 1]);
    assert gs[..n - 1][..i] == gs[..i];
    if i == n - 1 {
      assert gs[..i] == gs[..n - 1];
    } else {
      FlattenSlice(gs[..n - 1], i);
      var a := TotalSize(gs[..i]);
      assert Flatten(gs)[a..a + |gs[i]|] == Flatten(gs[..n - 1])[a..a + |gs[i]|];
    }
  }

  // ---------------------------------------------------------------------------
  // Blanking of continuation rows

  /**
    The loop that turns an item row into a continuation row: every key that the
    entity does not keep is overwritten with "" (`item_row[key] = ""`), in key
    order, leaving kept keys alone.
   */
  method BlankContinuation(row: Row, keep: string -> bool) returns (r: Row)
    requires DistinctKeys(row)
    ensures Keys(r) == Keys(row) && DistinctKeys(r)
    ensures forall i :: 0 <= i < |row| ==> r[i].1 == if keep(row[i].0) then row[i].1 else Blank
    ensures Blanked(r, keep)
  {
    r := row;
    var i := 0;
    while i < |row|
      invariant 0 <= i <= |row| && BlankedUpTo(row, r, i, keep)
    {
      var key := row[i].0;
      BlankStep(row, r, i, keep);
      if !keep(key) {
        r := Set(r, key, Blank);
      }
      i := i + 1;
    }
    BlankDone(row, r, keep);
  }

  /** The state of that loop after the first `i` keys: those are blanked unless kept, the rest untouched. */
  predicate BlankedUpTo(row: Row, r: Row, i: nat, keep: string -> bool) {
    i <= |row| == |r| &&
    (forall j :: 0 <= j < |row| ==> r[j].0 == row[j].0) &&
    (forall j :: 0 <= j < i ==> r[j].1 == if keep(row[j].0) then row[j].1 else Blank) &&
    (forall j :: i <= j < |row| ==> r[j].1 == row[j].1)
  }

  lemma SameKeysDistinct(row: Row, r: Row)
    requires DistinctKeys(row) && |r| == |row|
    requires forall j :: 0 <= j < |row| ==> r[j].0 == row[j].0
    ensures DistinctKeys(r)
  {
    assert forall a, b :: 0 <= a < b < |r| ==> r[a].0 == row[a].0 && r[b].0 == row[b].0;
  }

  lemma BlankStep(row: Row, r: Row, i: nat, keep: string -> bool)
    requires DistinctKeys(row) && i < |row| && BlankedUpTo(row, r, i, keep)
    ensures !keep(row[i].0) ==> BlankedUpTo(row, Set(r, row[i].0, Blank), i + 1, keep)
    ensures keep(row[i].0) ==> BlankedUpTo(row, r, i + 1, keep)
  {
    if !keep(row[i].0) {
      SameKeysDistinct(row, r);
      SetAt(r, i, Blank);
      BlankWrite(row, r, i, keep);
    }
  }

  lemma BlankWrite(row: Row, r: Row, i: nat, keep: string -> bool)
    requires i < |row| && BlankedUpTo(row, r, i, keep) && !keep(row[i].0)
    ensures BlankedUpTo(row, r[i := (row[i].0, Blank)], i + 1, keep)
  {
  }

  lemma BlankDone(row: Row, r: Row, keep: string -> bool)
    requires DistinctKeys(row) && BlankedUpTo(row, r, |row|, keep)
    ensures Keys(r) == Keys(row) && DistinctKeys(r)
    ensures forall i :: 0 <= i < |row| ==> r[i].1 == if keep(row[i].0) then row[i].1 else Blank
    ensures Blanked(r, keep)
  {
    SameKeysDistinct(row, r);
  }

  /** Every column outside the keep-set holds "". */
  predicate Blanked(row: Row, keep: string -> bool) {
    forall i :: 0 <= i < |row| && !keep(row[i].0) ==> row[i].1 == Blank
  }

  /** Every row of a parent record after the first is blanked. */
  predicate ContinuationsBlanked(g: seq<Row>, keep: string -> bool)
    decreases |g|
  {
    |g| <= 1 || (ContinuationsBlanked(g[..|g| - 1], keep) && Blanked(g[|g| - 1], keep))
  }

  lemma {:induction false} ContinuationsBlankedAt(g: seq<Row>, keep: string -> bool, j: nat)
    requires ContinuationsBlanked(g, keep) && 0 < j < |g|
    ensures Blanked(g[j], keep)
    decreases |g|
  {
    if j < |g| - 1 {
      ContinuationsBlankedAt(g[..|g| - 1], keep, j);
    }
  }

  lemma ContinuationsSnoc(g: seq<Row>, keep: string -> bool, item: Row)
    requires ContinuationsBlanked(g, keep) && (g != [] ==> Blanked(item, keep))
    ensures ContinuationsBlanked(g + [item], keep)
  {
    assert (g + [item])[..|g|] == g;
  }

  /** A column present in a blanked row that the keep-set does not cover holds "". */
  lemma BlankedCell(row: Row, keep: string -> bool, k: string)
    requires Blanked(row, keep) && DistinctKeys(row) && k in Keys(row) && !keep(k)
    ensures Get(row, k) == Some(Blank)
  {
    var i :| 0 <= i < |row| && Keys(row)[i] == k;
    GetAt(row, i);
  }

  /** Lookup on a blanked row: kept keys read as before, every other present key reads "". */
  lemma BlankedGet(row: Row, r: Row, keep: string -> bool, k: string)
    requires DistinctKeys(row) && Keys(r) == Keys(row) && DistinctKeys(r)
    requires forall i :: 0 <= i < |row| ==> r[i].1 == if keep(row[i].0) then row[i].1 else Blank
    ensures keep(k) ==> Get(r, k) == Get(row, k)
    ensures !keep(k) && k in Keys(row) ==> Get(r, k) == Some(Blank)
  {
    if k in Keys(row) {
      var i :| 0 <= i < |row| && row[i].0 == k;
      GetAt(row, i);
      assert r[i].0 == Keys(r)[i] == k;
      GetAt(r, i);
    } else {
      assert Get(r, k).None?;
    }
  }
}
