/**
 * The part of Android's SharedPreferences the widget code relies on: a map from
 * string keys to values, read with a default, where per-widget entries live under
 * `prefix + id` (Kotlin string concatenation of an `Int`).
 */
module Prefs {
  import opened Decimal

  /** The key of widget `id`'s entry in a family of per-widget entries. */
  function KeyFor(prefix: string, id: Int32): (key: string) {
    prefix + IntToString(id)
  }

  /** Two widgets never share an entry of the same family. */
  lemma KeyForInjective(prefix: string, a: Int32, b: Int32)
    requires KeyFor(prefix, a) == KeyFor(prefix, b)
    ensures a == b
  {
    assert KeyFor(prefix, a)[|prefix|..] == IntToString(a);
    assert KeyFor(prefix, b)[|prefix|..] == IntToString(b);
    IntToStringInjective(a, b);
  }

  /** `getBoolean(key, default)`, `getString(key, default)`: the stored value or the default. */
  function Get<V>(m: map<string, V>, key: string, default: V): (v: V) {
    if key in m then m[key] else default
  }

  /** The keys of the entries of every widget in `ids`. */
  function KeysFor(prefix: string, ids: seq<Int32>): (keys: set<string>)
    decreases |ids|
  {
    if ids == [] then {} else KeysFor(prefix, ids[..|ids| - 1]) + {KeyFor(prefix, ids[|ids| - 1])}
  }

  /** After `put(prefix + id, v)`, widget `id` reads `v` and every other widget reads what it read before. */
  lemma GetAfterPut<V>(m: map<string, V>, prefix: string, id: Int32, v: V, other: Int32, default: V)
    ensures Get(m[KeyFor(prefix, id) := v], KeyFor(prefix, other), default)
         == if other == id then v else Get(m, KeyFor(prefix, other), default)
  {
    if other != id && KeyFor(prefix, other) == KeyFor(prefix, id) {
      KeyForInjective(prefix, other, id);
    }
  }

  /** After `remove(prefix + id)`, widget `id` reads the default and every other widget is unaffected. */
  lemma GetAfterRemove<V>(m: map<string, V>, prefix: string, id: Int32, other: Int32, default: V)
    ensures Get(m - {KeyFor(prefix, id)}, KeyFor(prefix, other), default)
         == if other == id then default else Get(m, KeyFor(prefix, other), default)
  {
    if other != id && KeyFor(prefix, other) == KeyFor(prefix, id) {
      KeyForInjective(prefix, other, id);
    }
  }

  /** Widget `other`'s key is among the keys of `ids` exactly when `other` is among `ids`. */
  lemma {:induction false} KeysForMembership(prefix: string, ids: seq<Int32>, other: Int32)
    ensures KeyFor(prefix, other) in KeysFor(prefix, ids) <==> other in ids
    decreases |ids|
  {
    if ids != [] {
      var n := |ids| - 1;
      assert KeyFor(prefix, other) in KeysFor(prefix, ids[..n]) <==> other in ids[..n] by {
        KeysForMembership(prefix, ids[..n], other);
      }
      assert KeyFor(prefix, other) == KeyFor(prefix, ids[n]) <==> other == ids[n] by {
        if KeyFor(prefix, other) == KeyFor(prefix, ids[n]) {
          KeyForInjective(prefix, other, ids[n]);
        }
      }
      assert other in ids <==> other in ids[..n] || other == ids[n] by {
        assert ids == ids[..n] + [ids[n]];
      }
    }
  }

  /** After removing the entries of all of `ids`, exactly the widgets in `ids` read the default. */
  lemma GetAfterRemoveAll<V>(m: map<string, V>, prefix: string, ids: seq<Int32>, other: Int32, default: V)
    ensures Get(m - KeysFor(prefix, ids), KeyFor(prefix, other), default)
         == if other in ids then default else Get(m, KeyFor(prefix, other), default)
  {
    KeysForMembership(prefix, ids, other);
  }
}
