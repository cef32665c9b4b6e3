/** Method discovery of lib/routing.ts (getExportedMethods): the export
    names of a route module split into a flag for a default export and the
    HTTP methods the module answers, each an export name upper-cased. */
module Exports {
  import opened Text

  /** `Methods` of lib/net.ts, with its repeated `PUT`. */
  const Methods: seq<string> := ["GET", "HEAD", "POST", "PUT", "PUT", "DELETE", "CONNECT", "OPTIONS", "TRACE", "PATCH"]

  /** An export name that makes a method key, and which one. */
  predicate Declares(e: string, m: string) {
    e != "default" && Upper(e) == m && m in Methods
  }

  /** The keys of the `methods` record after the first `n` export names, in
      the order they were first set. */
  function MethodKeys(exports: seq<string>, n: nat): (keys: seq<string>)
    requires n <= |exports|
  {
    if n == 0 then []
    else
      var keys := MethodKeys(exports, n - 1);
      var e := exports[n - 1];
      if e != "default" && Upper(e) in Methods && Upper(e) !in keys then keys + [Upper(e)] else keys
  }

  /** The keys are distinct, and a method is a key exactly when some export
      name other than `default` upper-cases to it. */
  lemma {:induction false} MethodKeysExact(exports: seq<string>, n: nat)
    requires n <= |exports|
    ensures forall j, k :: 0 <= j < k < |MethodKeys(exports, n)| ==> MethodKeys(exports, n)[j] != MethodKeys(exports, n)[k]
    ensures forall m :: m in MethodKeys(exports, n) <==> exists i :: 0 <= i < n && Declares(exports[i], m)
  {
    if n > 0 {
      MethodKeysExact(exports, n - 1);
      var keys := MethodKeys(exports, n - 1);
      forall m
        ensures m in MethodKeys(exports, n) <==> exists i :: 0 <= i < n && Declares(exports[i], m)
      {
        if exists i :: 0 <= i < n && Declares(exports[i], m) {
          var i :| 0 <= i < n && Declares(exports[i], m);
          if i < n - 1 {
            assert m in keys;
          }
        }
      }
    }
  }

  /** The result of getExportedMethods, with whether it printed its
      warning. */
  datatype Discovery = Discovery(methods: seq<string>, hasDefaultExport: bool, warns: bool)

  /** What getExportedMethods finds in a module with the given export
      names, listed in Object.keys order. */
  function Discover(exports: seq<string>): Discovery {
    var methods := MethodKeys(exports, |exports|);
    var hasDefaultExport := "default" in exports;
    Discovery(methods, hasDefaultExport, |methods| == 0 && !hasDefaultExport)
  }

  /** getExportedMethods. The name of the route only appears in the
      warning. */
  method GetExportedMethods(exports: seq<string>, name: string) returns (d: Discovery)
    ensures d == Discover(exports)
  {
    var methods: seq<string> := [];
    var hasDefaultExport := false;
    for i := 0 to |exports|
      invariant methods == MethodKeys(exports, i)
      invariant hasDefaultExport <==> "default" in exports[..i]
    {
      var e := exports[i];
      assert exports[..i + 1] == exports[..i] + [e];
      if e == "default" {
        hasDefaultExport := true;
        continue;
      }
      var upper := Upper(e);
      if upper in Methods && upper !in methods {
        methods := methods + [upper];
      }
    }
    assert exports[..|exports|] == exports;
    var warns := |methods| == 0 && !hasDefaultExport;
    d := Discovery(methods, hasDefaultExport, warns);
  }

  /** Two exports whose names differ only in case, neither of them
      `default`, give a single key: it is present exactly when their
      upper-cased name is a method, and it occurs at most once. */
  lemma CaseInsensitive(exports: seq<string>, i: nat, j: nat)
    requires i < j < |exports|
    requires exports[i] != "default" && exports[j] != "default"
    requires Upper(exports[i]) == Upper(exports[j])
    ensures Upper(exports[j]) in MethodKeys(exports, |exports|) <==> Upper(exports[i]) in Methods
    ensures forall a, b ::
              0 <= a < b < |MethodKeys(exports, |exports|)| && MethodKeys(exports, |exports|)[a] == Upper(exports[i])
              ==> MethodKeys(exports, |exports|)[b] != Upper(exports[j])
  {
    MethodKeysExact(exports, |exports|);
    if Upper(exports[i]) in Methods {
      assert Declares(exports[i], Upper(exports[i]));
    }
  }
}
