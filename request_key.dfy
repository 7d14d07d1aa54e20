/**
 * Cache keys for HTTP requests: the canonical encoding of a request body and
 * the SHA-256 preimage built from the method, the normalised URL and the
 * encoded `data` and `json` bodies.  The URL normaliser and the hash are
 * foreign code and enter as function values.
 */
module RequestKey {
  import opened Text

  /** A `data`, `json` or `params` value, as `_encode_dict` tells them apart. */
  datatype Payload =
    | Absent                                  // None
    | Raw(bytes: seq<byte>)                   // a bytes object
    | Scalar(rendered: string, truthy: bool)  // any other non-mapping value: str(v) and bool(v)
    | Mapping(items: seq<(string, string)>)   // a mapping, in insertion order, keys and values as str()

  /** Python truthiness of a payload. */
  predicate Truthy(d: Payload)
  {
    match d
    case Absent => false
    case Raw(b) => |b| > 0
    case Scalar(_, t) => t
    case Mapping(items) => |items| > 0
  }

  /** The foreign functions a request key depends on. */
  datatype Foreign = Foreign(
    mergeQuery: (string, Payload) -> string,  // yarl: the URL's own query extended by `params`
    normalize: string -> string,              // url_normalize (RFC 3986 section 6)
    sha256: seq<byte> -> string)              // hashlib.sha256(...).hexdigest()

  // ---- code-point order on strings and on (key, value) pairs ----

  /** Python's `<=` on `str`: lexicographic by code point. */
  predicate LexLe(a: string, b: string)
  {
    |a| == 0 || (|b| > 0 && (a[0] < b[0] || (a[0] == b[0] && LexLe(a[1..], b[1..]))))
  }

  lemma {:induction false} LexLeTotal(a: string, b: string)
    ensures LexLe(a, b) || LexLe(b, a)
  {
    if |a| > 0 && |b| > 0 && a[0] == b[0] {
      LexLeTotal(a[1..], b[1..]);
    }
  }

  lemma {:induction false} LexLeAntisymmetric(a: string, b: string)
    requires LexLe(a, b) && LexLe(b, a)
    ensures a == b
  {
    if |a| > 0 && |b| > 0 {
      LexLeAntisymmetric(a[1..], b[1..]);
      assert a == [a[0]] + a[1..] && b == [b[0]] + b[1..];
    }
  }

  lemma {:induction false} LexLeTransitive(a: string, b: string, c: string)
    requires LexLe(a, b) && LexLe(b, c)
    ensures LexLe(a, c)
  {
    if |a| > 0 && |b| > 0 && |c| > 0 && a[0] == b[0] == c[0] {
      LexLeTransitive(a[1..], b[1..], c[1..]);
    }
  }

  /** Python's `<=` on `(str, str)` tuples. */
  predicate PairLe(p: (string, string), q: (string, string))
  {
    (p.0 != q.0 && LexLe(p.0, q.0)) || (p.0 == q.0 && LexLe(p.1, q.1))
  }

  lemma PairLeTotal(p: (string, string), q: (string, string))
    ensures PairLe(p, q) || PairLe(q, p)
  {
    LexLeTotal(p.0, q.0);
    LexLeTotal(p.1, q.1);
  }

  lemma PairLeAntisymmetric(p: (string, string), q: (string, string))
    requires PairLe(p, q) && PairLe(q, p)
    ensures p == q
  {
    if p.0 != q.0 {
      LexLeAntisymmetric(p.0, q.0);
    } else {
      LexLeAntisymmetric(p.1, q.1);
    }
  }

  lemma PairLeTransitive(p: (string, string), q: (string, string), r: (string, string))
    requires PairLe(p, q) && PairLe(q, r)
    ensures PairLe(p, r)
  {
    if p.0 != q.0 && q.0 != r.0 {
      LexLeTransitive(p.0, q.0, r.0);
      if p.0 == r.0 {
        LexLeAntisymmetric(p.0, q.0);
      }
    } else if p.0 == q.0 && q.0 == r.0 {
      LexLeTransitive(p.1, q.1, r.1);
    }
  }

  // ---- `sorted(data.items())` ----

  predicate Sorted(s: seq<(string, string)>)
  {
    forall i, j :: 0 <= i < j < |s| ==> PairLe(s[i], s[j])
  }

  function Insert(x: (string, string), s: seq<(string, string)>): seq<(string, string)>
  {
    if |s| == 0 then [x]
    else if PairLe(x, s[0]) then [x] + s
    else [s[0]] + Insert(x, s[1..])
  }

  function Sort(s: seq<(string, string)>): seq<(string, string)>
  {
    if |s| == 0 then [] else Insert(s[0], Sort(s[1..]))
  }

  lemma {:induction false} InsertPermutes(x: (string, string), s: seq<(string, string)>)
    ensures multiset(Insert(x, s)) == multiset(s) + multiset{x}
  {
    if |s| > 0 && !PairLe(x, s[0]) {
      InsertPermutes(x, s[1..]);
      assert s == [s[0]] + s[1..];
    }
  }

  /** Inserting below the head of a sorted sequence keeps it sorted. */
  lemma InsertAtHeadSorted(x: (string, string), s: seq<(string, string)>)
    requires Sorted(s) && |s| > 0 && PairLe(x, s[0])
    ensures Sorted([x] + s)
  {
    forall j | 0 <= j < |s| ensures PairLe(x, s[j]) {
      if j > 0 { PairLeTransitive(x, s[0], s[j]); }
    }
    var t := [x] + s;
    forall i, j | 0 <= i < j < |t| ensures PairLe(t[i], t[j]) {
      if i > 0 { assert t[i] == s[i - 1] && t[j] == s[j - 1]; }
    }
  }

  /** A sequence whose head is below every element of a sorted tail is sorted. */
  lemma ConsSorted(h: (string, string), t: seq<(string, string)>)
    requires Sorted(t)
    requires forall k :: 0 <= k < |t| ==> PairLe(h, t[k])
    ensures Sorted([h] + t)
  {
    var u := [h] + t;
    forall i, j | 0 <= i < j < |u| ensures PairLe(u[i], u[j]) {
      if i > 0 { assert u[i] == t[i - 1] && u[j] == t[j - 1]; }
    }
  }

  lemma {:induction false} InsertSorted(x: (string, string), s: seq<(string, string)>)
    requires Sorted(s)
    ensures Sorted(Insert(x, s))
  {
    if |s| == 0 {
    } else if PairLe(x, s[0]) {
      InsertAtHeadSorted(x, s);
    } else {
      PairLeTotal(x, s[0]);
      InsertSorted(x, s[1..]);
      InsertPermutes(x, s[1..]);
      var t := Insert(x, s[1..]);
      forall k | 0 <= k < |t| ensures PairLe(s[0], t[k]) {
        assert t[k] in multiset(t);
        if t[k] != x {
          assert t[k] in multiset(s[1..]);
          var m :| 0 <= m < |s[1..]| && s[1..][m] == t[k];
          assert PairLe(s[0], s[m + 1]);
        }
      }
      ConsSorted(s[0], t);
    }
  }

  lemma {:induction false} SortCorrect(s: seq<(string, string)>)
    ensures Sorted(Sort(s))
    ensures multiset(Sort(s)) == multiset(s)
  {
    if |s| > 0 {
      SortCorrect(s[1..]);
      InsertSorted(s[0], Sort(s[1..]));
      InsertPermutes(s[0], Sort(s[1..]));
      assert s == [s[0]] + s[1..];
    }
  }

  /** In a sorted sequence the head is below every member. */
  lemma HeadBelowMembers(a: seq<(string, string)>, x: (string, string))
    requires Sorted(a) && |a| > 0 && x in multiset(a)
    ensures PairLe(a[0], x)
  {
    var j :| 0 <= j < |a| && a[j] == x;
    if j == 0 {
      LexLeTotal(x.1, x.1);
    }
  }

  lemma SameHead(a: seq<(string, string)>, b: seq<(string, string)>)
    requires Sorted(a) && Sorted(b) && multiset(a) == multiset(b) && |a| > 0 && |b| > 0
    ensures a[0] == b[0]
  {
    assert a[0] in multiset(a) && b[0] in multiset(b);
    HeadBelowMembers(a, b[0]);
    HeadBelowMembers(b, a[0]);
    PairLeAntisymmetric(a[0], b[0]);
  }

  /** A sorted arrangement of a multiset of pairs is unique. */
  lemma {:induction false} SortedUnique(a: seq<(string, string)>, b: seq<(string, string)>)
    requires Sorted(a) && Sorted(b) && multiset(a) == multiset(b)
    ensures a == b
  {
    assert |b| == |multiset(b)| == |multiset(a)| == |a|;
    if |a| > 0 {
      SameHead(a, b);
      assert a == [a[0]] + a[1..] && b == [b[0]] + b[1..];
      assert multiset(a[1..]) == multiset(a) - multiset{a[0]};
      assert multiset(b[1..]) == multiset(b) - multiset{b[0]};
      SortedUnique(a[1..], b[1..]);
    }
  }

  /** Sorting forgets the order the items were inserted in. */
  lemma SortForgetsOrder(p: seq<(string, string)>, q: seq<(string, string)>)
    requires multiset(p) == multiset(q)
    ensures Sort(p) == Sort(q)
  {
    SortCorrect(p);
    SortCorrect(q);
    SortedUnique(Sort(p), Sort(q));
  }

  // ---- `_encode_dict` ----

  /** `[f"{k}={v}" for k, v in items]`. */
  function Render(items: seq<(string, string)>): (r: seq<string>)
    ensures |r| == |items|
  {
    seq(|items|, i requires 0 <= i < |items| => items[i].0 + "=" + items[i].1)
  }

  /** `_encode_dict`: the canonical bytes of a request body. */
  function EncodeBody(d: Payload): (r: seq<byte>)
    ensures !Truthy(d) ==> r == []
    ensures d.Raw? ==> r == d.bytes
    ensures d.Scalar? && d.truthy ==> r == Encode(d.rendered)
  {
    if !Truthy(d) then []
    else match d
      case Raw(b) => b
      case Scalar(s, _) => Encode(s)
      case Mapping(items) => Encode(Join(Render(Sort(items)), "&"))
  }

  /**
   * A non-empty mapping encodes to its items in sorted order, rendered as
   * `k=v` and joined by `&`: any sorted arrangement of the items gives the
   * encoding, so it does not depend on insertion order.
   */
  lemma EncodeMappingIsSortedJoin(items: seq<(string, string)>, arranged: seq<(string, string)>)
    requires |items| > 0
    requires Sorted(arranged) && multiset(arranged) == multiset(items)
    ensures EncodeBody(Mapping(items)) == Encode(Join(Render(arranged), "&"))
  {
    SortCorrect(items);
    SortedUnique(Sort(items), arranged);
  }

  // ---- `_normalize_url_params` and `create_request_key` ----

  /** The URL with `params` merged into its query (only when `params` is truthy), normalised. */
  function NormalizeUrl(url: string, params: Payload, f: Foreign): string
  {
    f.normalize(if Truthy(params) then f.mergeQuery(url, params) else url)
  }

  /** The bytes hashed by `create_request_key`. */
  function Preimage(verb: string, url: string, params: Payload, data: Payload, json: Payload, f: Foreign): seq<byte>
  {
    Encode(Upper(verb)) + Encode(NormalizeUrl(url, params, f)) + EncodeBody(data) + EncodeBody(json)
  }

  /** `create_request_key(method, url, params, data, json)`. */
  function CreateRequestKey(verb: string, url: string, params: Payload, data: Payload, json: Payload, f: Foreign): string
  {
    f.sha256(Preimage(verb, url, params, data, json, f))
  }

  /** The key ignores the letter case of the method. */
  lemma KeyIgnoresMethodCase(verb: string, url: string, params: Payload, data: Payload, json: Payload, f: Foreign)
    ensures CreateRequestKey(verb, url, params, data, json, f)
         == CreateRequestKey(Upper(verb), url, params, data, json, f)
  {
    UpperIdempotent(verb);
  }

  /** The key ignores the insertion order of the `data` and `json` mappings. */
  lemma KeyIgnoresBodyOrder(verb: string, url: string, params: Payload,
                            data1: seq<(string, string)>, data2: seq<(string, string)>,
                            json1: seq<(string, string)>, json2: seq<(string, string)>, f: Foreign)
    requires multiset(data1) == multiset(data2) && multiset(json1) == multiset(json2)
    ensures CreateRequestKey(verb, url, params, Mapping(data1), Mapping(json1), f)
         == CreateRequestKey(verb, url, params, Mapping(data2), Mapping(json2), f)
  {
    SortForgetsOrder(data1, data2);
    SortForgetsOrder(json1, json2);
    assert |data1| == |multiset(data1)| == |data2|;
    assert |json1| == |multiset(json1)| == |json2|;
  }

  /** `data=None` and `data={}` (and likewise for `json`) give the same key. */
  lemma KeyNoneEqualsEmpty(verb: string, url: string, params: Payload, f: Foreign)
    ensures CreateRequestKey(verb, url, params, Absent, Absent, f)
         == CreateRequestKey(verb, url, params, Mapping([]), Mapping([]), f)
  {
  }

  /**
   * Methods whose upper-cased forms start with different ASCII letters give
   * different preimages, so a collision-free hash gives different keys
   * (GET and POST among them).
   */
  lemma PreimageSeparatesMethods(m1: string, m2: string, url: string, params: Payload,
                                 data: Payload, json: Payload, f: Foreign)
    requires |m1| > 0 && |m2| > 0
    requires m1[0] < 128 as char && m2[0] < 128 as char
    requires UpperChar(m1[0]) != UpperChar(m2[0])
    ensures Preimage(m1, url, params, data, json, f) != Preimage(m2, url, params, data, json, f)
  {
    var u1, u2 := Upper(m1), Upper(m2);
    assert Encode(u1)[0] as int == u1[0] as int;
    assert Encode(u2)[0] as int == u2[0] as int;
    assert Preimage(m1, url, params, data, json, f)[0] != Preimage(m2, url, params, data, json, f)[0];
  }
}
