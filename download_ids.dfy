/**
 * Download ids and the key diff that decides which files were added to and
 * removed from a product. A download id is the key of an entry in the
 * product's downloads array, taken in its PHP string form: that is how
 * array_diff compares keys and how the id is bound into the SQL (%s).
 */
module DownloadIds {
  import opened Sequences

  type DownloadId = string

  /** PHP falsiness of an array key: the empty string, and "0", the string form of int 0. */
  predicate Falsy(id: DownloadId)
  {
    id == "" || id == "0"
  }

  /** array_diff(a, b): the elements of a, in their order, that do not occur in b. */
  function Diff(a: seq<DownloadId>, b: seq<DownloadId>): (r: seq<DownloadId>)
    ensures |r| <= |a|
    ensures forall x :: x in r <==> x in a && x !in b
  {
    if a == [] then []
    else if a[0] in b then Diff(a[1..], b)
    else [a[0]] + Diff(a[1..], b)
  }

  /** array_filter(s) without a callback: the truthy elements of s, in their order. */
  function Truthy(s: seq<DownloadId>): (r: seq<DownloadId>)
    ensures |r| <= |s|
    ensures forall x :: x in r <==> x in s && !Falsy(x)
  {
    if s == [] then []
    else if Falsy(s[0]) then Truthy(s[1..])
    else [s[0]] + Truthy(s[1..])
  }

  /** The ids of files newly attached to the product: submitted now, not attached before. */
  function Added(existing: seq<DownloadId>, updated: seq<DownloadId>): (r: seq<DownloadId>)
    ensures forall x :: x in r <==> x in updated && x !in existing && !Falsy(x)
  {
    Truthy(Diff(updated, existing))
  }

  /** The ids of files detached from the product: attached before, not submitted now. */
  function Removed(existing: seq<DownloadId>, updated: seq<DownloadId>): (r: seq<DownloadId>)
    ensures forall x :: x in r <==> x in existing && x !in updated && !Falsy(x)
  {
    Truthy(Diff(existing, updated))
  }

  /** Diff keeps distinct elements distinct, so each id is handled once. */
  lemma {:induction false} DiffKeepsDistinct(a: seq<DownloadId>, b: seq<DownloadId>)
    requires NoDuplicates(a)
    ensures NoDuplicates(Diff(a, b))
  {
    if a != [] {
      assert NoDuplicates(a[1..]) by {
        forall i, j | 0 <= i < j < |a[1..]| ensures a[1..][i] != a[1..][j] {
          assert a[1..][i] == a[i + 1] && a[1..][j] == a[j + 1];
        }
      }
      DiffKeepsDistinct(a[1..], b);
      if a[0] !in b {
        var rest := Diff(a[1..], b);
        assert a[0] !in rest by {
          forall k | 0 <= k < |a[1..]| ensures a[1..][k] != a[0] {
            assert a[1..][k] == a[k + 1];
          }
        }
        assert Diff(a, b) == [a[0]] + rest;
      }
    }
  }

  /** Truthy keeps distinct elements distinct. */
  lemma {:induction false} TruthyKeepsDistinct(s: seq<DownloadId>)
    requires NoDuplicates(s)
    ensures NoDuplicates(Truthy(s))
  {
    if s != [] {
      assert NoDuplicates(s[1..]) by {
        forall i, j | 0 <= i < j < |s[1..]| ensures s[1..][i] != s[1..][j] {
          assert s[1..][i] == s[i + 1] && s[1..][j] == s[j + 1];
        }
      }
      TruthyKeepsDistinct(s[1..]);
      if !Falsy(s[0]) {
        var rest := Truthy(s[1..]);
        assert s[0] !in rest by {
          forall k | 0 <= k < |s[1..]| ensures s[1..][k] != s[0] {
            assert s[1..][k] == s[k + 1];
          }
        }
        assert Truthy(s) == [s[0]] + rest;
      }
    }
  }

  /** When the submitted keys are distinct, as PHP array keys are, so are the added ids. */
  lemma AddedDistinct(existing: seq<DownloadId>, updated: seq<DownloadId>)
    requires NoDuplicates(updated)
    ensures NoDuplicates(Added(existing, updated))
  {
    DiffKeepsDistinct(updated, existing);
    TruthyKeepsDistinct(Diff(updated, existing));
  }

  /** When the existing keys are distinct, so are the removed ids. */
  lemma RemovedDistinct(existing: seq<DownloadId>, updated: seq<DownloadId>)
    requires NoDuplicates(existing)
    ensures NoDuplicates(Removed(existing, updated))
  {
    DiffKeepsDistinct(existing, updated);
    TruthyKeepsDistinct(Diff(existing, updated));
  }

  /** No id is both added and removed. */
  lemma AddedRemovedDisjoint(existing: seq<DownloadId>, updated: seq<DownloadId>)
    ensures forall x :: x in Added(existing, updated) ==> x !in Removed(existing, updated)
  {
  }

  /**
   * Nothing is added and nothing removed exactly when the old and the new
   * lists hold the same truthy ids.
   */
  lemma NoChangeIffSameIds(existing: seq<DownloadId>, updated: seq<DownloadId>)
    ensures (Added(existing, updated) == [] && Removed(existing, updated) == [])
        <==> (forall x :: !Falsy(x) ==> (x in existing <==> x in updated))
  {
    var added, removed := Added(existing, updated), Removed(existing, updated);
    if added != [] {
      assert added[0] in added;
    }
    if removed != [] {
      assert removed[0] in removed;
    }
  }
}
