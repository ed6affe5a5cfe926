/** Naming conventions shared by every generation of the scenario code: the
    marker field and its values, the demo folder and the exception codes. */
module Markers {

  /** The passthrough column that tags every generated page and content row. */
  const Field := "tx_translationhandling_identifier"

  /** Every marker value starts with this; the page lookup ignores others. */
  const Prefix := "tx_translationhandling_"

  /** The file-storage folder the demo images live in. */
  const DemoFolder := "translation_handling"

  /** The scenario types the command line accepts besides "all". */
  const ScenarioTypes: seq<string> := ["fallback", "strict", "free"]

  /** No language ids for the root page, or an unknown translation mode. */
  const NoLanguagesOrUnknownMode := 1704469009
  /** A content element's `excludeLanguages` is not an array. */
  const ExcludeLanguagesNotArray := 1704540645
  /** The record-mutation engine, the schema or the site writer failed. */
  const HostFailure := 1757323932
  /** The older generator refuses to create a second tree for a type. */
  const SecondTree := 1702623429

  /** `tx_translationhandling_<type>`: marks subpages and content. */
  function Identifier(t: string): (m: string)
    ensures |m| == |Prefix| + |t|
    ensures m[..|Prefix|] == Prefix
    ensures m[|Prefix|..] == t
  {
    Prefix + t
  }

  /** `tx_translationhandling_<type>_root`: marks the entry page. */
  function RootMarker(t: string): (m: string)
    ensures |m| == |Prefix| + |t| + 5
    ensures m[..|Prefix|] == Prefix
  {
    Identifier(t) + "_root"
  }

  /** `tx_translationhandling_<type>_storage`: marks the records storage
      page of the event-driven generation. */
  function StorageMarker(t: string): (m: string)
    ensures |m| == |Prefix| + |t| + 8
    ensures m[..|Prefix|] == Prefix
  {
    Identifier(t) + "_storage"
  }

  /** For one type the three markers are pairwise different, so a lookup
      by one never returns rows tagged with another. */
  lemma MarkersDistinct(t: string)
    ensures RootMarker(t) != StorageMarker(t)
    ensures RootMarker(t) != Identifier(t)
    ensures StorageMarker(t) != Identifier(t)
  {
  }

  /** Among the three scenario types every marker names exactly one
      (type, role) pair. */
  lemma {:induction false} ScenarioMarkersDistinct(a: string, b: string)
    requires a in ScenarioTypes && b in ScenarioTypes && a != b
    ensures Identifier(a) != Identifier(b)
    ensures RootMarker(a) != RootMarker(b)
    ensures StorageMarker(a) != StorageMarker(b)
    ensures RootMarker(a) != Identifier(b) && StorageMarker(a) != Identifier(b)
    ensures RootMarker(a) != StorageMarker(b)
  {
    SuffixesDiffer(a, b);
    MarkerAsIdentifier(a);
    MarkerAsIdentifier(b);
    assert Identifier(a) != Identifier(b) by {
      PrefixCancels(a, b);
    }
    assert RootMarker(a) != RootMarker(b) by {
      PrefixCancels(a + "_root", b + "_root");
    }
    assert StorageMarker(a) != StorageMarker(b) by {
      PrefixCancels(a + "_storage", b + "_storage");
    }
    assert RootMarker(a) != Identifier(b) by {
      PrefixCancels(a + "_root", b);
    }
    assert StorageMarker(a) != Identifier(b) by {
      PrefixCancels(a + "_storage", b);
    }
    assert RootMarker(a) != StorageMarker(b) by {
      PrefixCancels(a + "_root", b + "_storage");
    }
  }

  /** The role markers are plain markers of suffixed types, so markers are
      not unique across arbitrary types: the plain marker of type `x_root`
      is the root marker of type `x`. */
  lemma MarkerAsIdentifier(t: string)
    ensures RootMarker(t) == Identifier(t + "_root")
    ensures StorageMarker(t) == Identifier(t + "_storage")
  {
    assert Prefix + (t + "_root") == (Prefix + t) + "_root";
    assert Prefix + (t + "_storage") == (Prefix + t) + "_storage";
  }

  lemma PrefixCancels(x: string, y: string)
    ensures Identifier(x) == Identifier(y) ==> x == y
  {
    if Identifier(x) == Identifier(y) {
      assert x == Identifier(x)[|Prefix|..];
    }
  }

  lemma SuffixesDiffer(a: string, b: string)
    requires a in ScenarioTypes && b in ScenarioTypes && a != b
    ensures a + "_root" != b + "_root"
    ensures a + "_storage" != b + "_storage"
    ensures a + "_root" != b && a + "_storage" != b
    ensures a + "_root" != b + "_storage"
  {
    assert a == "fallback" || a == "strict" || a == "free";
    assert b == "fallback" || b == "strict" || b == "free";
  }
}
