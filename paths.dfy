/**
  Object keys are '/'-separated paths. The handler derives an asset's file name
  with `key.split('/').pop()`: the last of the '/'-separated segments.
 */
module Paths {

  /** `s.split('/')`: the maximal '/'-free segments, at least one of them. */
  function Split(s: string): (parts: seq<string>)
    ensures |parts| >= 1
    ensures forall i :: 0 <= i < |parts| ==> '/' !in parts[i]
    decreases |s|
  {
    if s == [] then [[]]
    else
      var rest := Split(s[1..]);
      if s[0] == '/' then [[]] + rest
      else [[s[0]] + rest[0]] + rest[1..]
  }

  /** `parts.join('/')`, the inverse of Split. */
  function Join(parts: seq<string>): (s: string)
    requires |parts| >= 1
    decreases |parts|
  {
    if |parts| == 1 then parts[0] else parts[0] + "/" + Join(parts[1..])
  }

  /** Splitting loses nothing: joining the segments gives the key back. */
  lemma {:induction false} JoinSplit(s: string)
    ensures Join(Split(s)) == s
    decreases |s|
  {
    if s != [] {
      var rest := Split(s[1..]);
      JoinSplit(s[1..]);
      if s[0] == '/' {
        assert Split(s)[1..] == rest;
      } else {
        var parts := Split(s);
        if |rest| == 1 {
          assert parts == [[s[0]] + rest[0]];
        } else {
          assert parts[1..] == rest[1..];
          assert Join(rest) == rest[0] + "/" + Join(rest[1..]);
        }
      }
    }
  }

  /** The last segment is at the end of the joined path, right after a '/' unless it is all of it. */
  lemma {:induction false} JoinEndsWithLast(parts: seq<string>)
    requires |parts| >= 1
    ensures var j, l := Join(parts), parts[|parts| - 1];
      |l| <= |j| && j[|j| - |l|..] == l && (|parts| == 1 || (|l| < |j| && j[|j| - |l| - 1] == '/'))
    decreases |parts|
  {
    if |parts| > 1 {
      JoinEndsWithLast(parts[1..]);
      var l := parts[|parts| - 1];
      var tail := Join(parts[1..]);
      assert parts[1..][|parts[1..]| - 1] == l;
      var j := parts[0] + "/" + tail;
      assert j[|j| - |l|..] == tail[|tail| - |l|..];
      if |parts[1..]| > 1 {
        assert j[|j| - |l| - 1] == tail[|tail| - |l| - 1];
      } else {
        assert tail == l;
        assert j[|j| - |l| - 1] == '/';
      }
    }
  }

  /** `key.split('/').pop()`: the file name of an object key. */
  function Name(key: string): (name: string)
  {
    var parts := Split(key);
    parts[|parts| - 1]
  }

  /** s has no '/'. */
  predicate NoSlash(s: string)
  {
    '/' !in s
  }

  /** s ends with t. */
  predicate IsSuffix(t: string, s: string)
  {
    |t| <= |s| && s[|s| - |t|..] == t
  }

  /**
    Name(key) is exactly the part of the key after its last '/': a '/'-free suffix of
    the key that is either the whole key or preceded by a '/'. It is non-empty when the
    key is non-empty and does not end in '/'.
   */
  lemma NameIsLastSegment(key: string)
    ensures NoSlash(Name(key)) && IsSuffix(Name(key), key)
    ensures Name(key) == key || key[|key| - |Name(key)| - 1] == '/'
    ensures key != [] && key[|key| - 1] != '/' ==> Name(key) != []
  {
    var parts := Split(key);
    JoinSplit(key);
    JoinEndsWithLast(parts);
  }

  /** Conversely, the part after the last '/' is unique: any string with those properties is Name(key). */
  lemma NameUnique(key: string, t: string)
    requires NoSlash(t) && IsSuffix(t, key)
    requires t == key || key[|key| - |t| - 1] == '/'
    ensures Name(key) == t
  {
    NameIsLastSegment(key);
  }
}
