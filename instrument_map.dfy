/**
 * Descriptor list to instrument map, as built once per provider before the
 * observation callback is registered. The meter's instrument constructors
 * are taken to succeed; a type name other than "counter" or "gauge" stores
 * the nil instrument under the key.
 */
module InstrumentMap {
  import opened Wrappers
  import opened GoStrings
  import opened MetricPath

  /** The instrument a descriptor asks for, or `None` (nil) for an unknown type name. */
  function InstrumentFor(md: MetricDescriptor): (r: InstrumentRef)
    ensures md.typeName == "counter" <==> r == Some(ObservableCounter(md.name, md.desc, md.unit))
    ensures md.typeName == "gauge" <==> r == Some(ObservableGauge(md.name, md.desc, md.unit))
    ensures r == None <==> md.typeName != "counter" && md.typeName != "gauge"
  {
    if md.typeName == "counter" then Some(ObservableCounter(md.name, md.desc, md.unit))
    else if md.typeName == "gauge" then Some(ObservableGauge(md.name, md.desc, md.unit))
    else None
  }

  /** Insert the descriptors left to right; a later key overwrites an earlier one. */
  function MapOf(mds: seq<MetricDescriptor>, keyCase: KeyCase): map<string, InstrumentRef>
    decreases |mds|
  {
    if mds == [] then map[]
    else MapOf(mds[..|mds| - 1], keyCase)[KeyFor(mds[|mds| - 1].key, keyCase) := InstrumentFor(mds[|mds| - 1])]
  }

  /** The keys of the map written so far. */
  function KeysWritten(mds: seq<MetricDescriptor>, keyCase: KeyCase): set<string> {
    set i | 0 <= i < |mds| :: KeyFor(mds[i].key, keyCase)
  }

  /** The map holds exactly one entry per distinct (possibly lower-cased) key. */
  lemma {:induction false} MapOfKeys(mds: seq<MetricDescriptor>, keyCase: KeyCase)
    ensures MapOf(mds, keyCase).Keys == KeysWritten(mds, keyCase)
    decreases |mds|
  {
    if mds != [] {
      var init := mds[..|mds| - 1];
      MapOfKeys(init, keyCase);
      assert KeysWritten(mds, keyCase) == KeysWritten(init, keyCase) + {KeyFor(mds[|mds| - 1].key, keyCase)} by {
        forall k | k in KeysWritten(mds, keyCase) ensures k in KeysWritten(init, keyCase) + {KeyFor(mds[|mds| - 1].key, keyCase)} {
          var i :| 0 <= i < |mds| && k == KeyFor(mds[i].key, keyCase);
          if i < |mds| - 1 {
            assert init[i] == mds[i];
          }
        }
        forall k | k in KeysWritten(init, keyCase) ensures k in KeysWritten(mds, keyCase) {
          var i :| 0 <= i < |init| && k == KeyFor(init[i].key, keyCase);
          assert mds[i] == init[i];
        }
      }
    }
  }

  /**
   * Last write wins: the entry under a key is built from the last descriptor
   * carrying that key, and no later descriptor carries it.
   */
  lemma {:induction false} MapOfLastWins(mds: seq<MetricDescriptor>, keyCase: KeyCase, k: string)
    requires k in MapOf(mds, keyCase)
    ensures exists i :: (0 <= i < |mds| && KeyFor(mds[i].key, keyCase) == k &&
      MapOf(mds, keyCase)[k] == InstrumentFor(mds[i]) &&
      forall j :: i < j < |mds| ==> KeyFor(mds[j].key, keyCase) != k)
    decreases |mds|
  {
    var n := |mds| - 1;
    if KeyFor(mds[n].key, keyCase) != k {
      var init := mds[..n];
      MapOfLastWins(init, keyCase, k);
      var i :| 0 <= i < |init| && KeyFor(init[i].key, keyCase) == k &&
        MapOf(init, keyCase)[k] == InstrumentFor(init[i]) &&
        forall j :: i < j < |init| ==> KeyFor(init[j].key, keyCase) != k;
      assert mds[i] == init[i];
      forall j | i < j < |mds| ensures KeyFor(mds[j].key, keyCase) != k {
        if j < n {
          assert mds[j] == init[j];
        }
      }
    }
  }

  /** Never more entries than descriptors; fewer exactly when keys repeat. */
  lemma {:induction false} MapOfSize(mds: seq<MetricDescriptor>, keyCase: KeyCase)
    ensures |MapOf(mds, keyCase)| <= |mds|
    decreases |mds|
  {
    if mds != [] {
      MapOfSize(mds[..|mds| - 1], keyCase);
    }
  }

  /** Keys are stored verbatim in this builder: a key is present iff some descriptor carries it. */
  lemma KeysVerbatim(mds: seq<MetricDescriptor>, k: string)
    ensures k in MapOf(mds, AsIs) <==> exists i :: 0 <= i < |mds| && mds[i].key == k
  {
    MapOfKeys(mds, AsIs);
    if k in MapOf(mds, AsIs) {
      var i :| 0 <= i < |mds| && KeyFor(mds[i].key, AsIs) == k;
    }
    if exists i :: 0 <= i < |mds| && mds[i].key == k {
      var i :| 0 <= i < |mds| && mds[i].key == k;
      assert KeyFor(mds[i].key, AsIs) == k;
    }
  }

  /**
   * The loop of the builder: each descriptor in turn picks its instrument by
   * type name and is stored under its key (raw or lower-cased).
   */
  method BuildMap(mds: seq<MetricDescriptor>, keyCase: KeyCase) returns (mdmap: map<string, InstrumentRef>)
    ensures mdmap == MapOf(mds, keyCase)
  {
    mdmap := map[];
    for i := 0 to |mds|
      invariant mdmap == MapOf(mds[..i], keyCase)
    {
      var md := mds[i];
      var tmp: InstrumentRef := None;
      if md.typeName == "counter" {
        tmp := Some(ObservableCounter(md.name, md.desc, md.unit));
      } else if md.typeName == "gauge" {
        tmp := Some(ObservableGauge(md.name, md.desc, md.unit));
      }
      assert mds[..i + 1][..i] == mds[..i];
      mdmap := mdmap[KeyFor(md.key, keyCase) := tmp];
    }
    assert mds[..|mds|] == mds;
  }

  /** The builder of the exporter's library: keys verbatim. */
  method CreateMapMetricDescriptor(mds: seq<MetricDescriptor>) returns (mdmap: map<string, InstrumentRef>)
    ensures mdmap == MapOf(mds, AsIs)
    ensures mdmap.Keys == set i | 0 <= i < |mds| :: mds[i].key
  {
    mdmap := BuildMap(mds, AsIs);
    MapOfKeys(mds, AsIs);
  }
}
