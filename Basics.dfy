/** Small helpers shared by every module of the model. */
module Basics {

  /** The usual optional value. */
  datatype Option<T> = None | Some(value: T)

  /** Go's `v, ok := m[k]` read with the zero value `default` for a missing key. */
  function MapGet<K, V>(m: map<K, V>, k: K, default: V): (v: V)
    ensures k in m ==> v == m[k]
    ensures k !in m ==> v == default
  {
    if k in m then m[k] else default
  }

  /** Number of occurrences of `c` in `s` (Go's strings.Count for a one-character pattern). */
  function Count(s: string, c: char): (n: nat)
    ensures n <= |s|
  {
    if s == [] then 0 else (if s[0] == c then 1 else 0) + Count(s[1..], c)
  }

  lemma {:induction false} CountAppend(s: string, t: string, c: char)
    ensures Count(s + t, c) == Count(s, c) + Count(t, c)
  {
    if s == [] {
      assert s + t == t;
    } else {
      assert (s + t)[1..] == s[1..] + t;
      CountAppend(s[1..], t, c);
    }
  }

  /** A character for which Go's strconv.Atoi(string(c)) succeeds. */
  predicate IsDecimalDigit(c: char)
  {
    '0' <= c <= '9'
  }

  /** The two Jellyfin/HTTP status codes the source treats as success. */
  predicate IsSuccessStatus(code: int)
  {
    code == 200 || code == 204
  }

  /** Go's `60*hours + minutes`, the minute term added after AddDate. */
  function OffsetMinutes(hours: int, minutes: int): int
  {
    60 * hours + minutes
  }
}
