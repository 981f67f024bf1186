/** Shared vocabulary: failure-carrying results, the fixed-width integers and floats of the
    Rust source, and substring search on strings. */
module Base {

  datatype Option<+T> = None | Some(value: T)

  /** Rust's `Result<T, E>`. */
  datatype Result<+T, +E> = Ok(value: T) | Err(error: E)

  /** A Rust function returning `Result<T, E>` that may also panic (a failed `assert!`,
      `debug_assert!` or `expect`, or an out-of-range slice). A panic ends the thread. */
  datatype Outcome<+T, +E> = Success(value: T) | Failure(error: E) | Panic

  const I32_MAX: int := 0x7fff_ffff

  newtype I32 = x: int | -0x8000_0000 <= x <= I32_MAX
  newtype U32 = x: int | 0 <= x < 0x1_0000_0000

  /** An IEEE-754 binary32 value, kept as its bit pattern: the model never computes with
      floats, it only passes them on. */
  datatype F32 = F32(bits: bv32)

  predicate StartsWith(s: string, prefix: string) {
    |prefix| <= |s| && s[..|prefix|] == prefix
  }

  /** Rust's `str::contains`: `sub` occurs somewhere in `s` (the empty string occurs everywhere). */
  predicate Contains(s: string, sub: string)
    decreases |s|
  {
    StartsWith(s, sub) || (|s| > 0 && Contains(s[1..], sub))
  }

  /** Does `s` contain any of `subs`? */
  predicate ContainsAny(s: string, subs: seq<string>) {
    exists i :: 0 <= i < |subs| && Contains(s, subs[i])
  }

  /** Concatenation of a sequence of strings, in order. */
  function Join(parts: seq<string>): (r: string)
    ensures parts == [] ==> r == ""
  {
    if parts == [] then "" else Join(parts[..|parts| - 1]) + parts[|parts| - 1]
  }

  lemma JoinSnoc(parts: seq<string>, last: string)
    ensures Join(parts + [last]) == Join(parts) + last
  {
    assert (parts + [last])[..|parts|] == parts;
  }

  /** Appending text never removes an occurrence. */
  lemma {:induction false} ContainsAppend(s: string, t: string, sub: string)
    requires Contains(s, sub)
    ensures Contains(s + t, sub)
    decreases |s|
  {
    if StartsWith(s, sub) {
      assert (s + t)[..|sub|] == s[..|sub|];
    } else {
      assert (s + t)[1..] == s[1..] + t;
      ContainsAppend(s[1..], t, sub);
    }
  }

  /** Prefixing text never removes an occurrence. */
  lemma {:induction false} ContainsPrepend(s: string, t: string, sub: string)
    requires Contains(t, sub)
    ensures Contains(s + t, sub)
    decreases |s|
  {
    if s == [] {
      assert s + t == t;
    } else {
      assert (s + t)[1..] == s[1..] + t;
      ContainsPrepend(s[1..], t, sub);
    }
  }

  /** Every string contains its own prefixes and suffixes: the parts of a concatenation
      remain findable in it. */
  lemma ContainsParts(s: string, t: string)
    ensures Contains(s + t, s) && Contains(s + t, t)
  {
    assert (s + t)[..|s|] == s;
    assert StartsWith(t, t);
    ContainsPrepend(s, t, t);
  }
}
