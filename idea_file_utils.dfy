/**
 * The path helpers the plugin imports from its `IdeaFileUtils` utility class
 * and from `java.io.File`. Their own sources are not part of this model; they
 * are given the simple definitions below: an IDE URL is a local path behind
 * the `file://` protocol, a path is absolute when it starts at the root, and
 * a `File` holds its path normalised as `java.io.File` does on Unix.
 */
module IdeaFileUtils {
  import opened JavaLang

  /** The protocol prefix of the IDE's URLs for local files. */
  const FILE_URL_PREFIX: string := "file://"

  /** `java.io.File.separator` on the platform the model assumes. */
  const SEPARATOR: string := "/"

  /** `toIdeaUrl(path)`: the IDE URL of a local path. */
  function ToIdeaUrl(path: string): string
  {
    FILE_URL_PREFIX + path
  }

  /** An IDE URL made from a path is a `file://` URL whose path is that path again. */
  lemma ToPathOfIdeaUrl(path: string)
    ensures StartsWith(ToIdeaUrl(path), FILE_URL_PREFIX)
    ensures ToPath(ToIdeaUrl(path)) == path
  {
    assert (FILE_URL_PREFIX + path)[..|FILE_URL_PREFIX|] == FILE_URL_PREFIX;
    assert (FILE_URL_PREFIX + path)[|FILE_URL_PREFIX|..] == path;
  }

  /** `toPath(url)`: the local path of an IDE URL; anything else is taken to be a path already. */
  function ToPath(url: string): (path: string)
    ensures StartsWith(url, FILE_URL_PREFIX) ==> url == FILE_URL_PREFIX + path
    ensures !StartsWith(url, FILE_URL_PREFIX) ==> path == url
  {
    if StartsWith(url, FILE_URL_PREFIX) then url[|FILE_URL_PREFIX|..] else url
  }

  /** `new File(path).isAbsolute()`. */
  predicate IsAbsolute(path: string)
  {
    StartsWith(path, SEPARATOR)
  }

  /** No two separators stand next to each other. */
  predicate NoDoubleSeparator(path: string)
  {
    forall i :: 0 <= i < |path| - 1 ==> !(path[i] == '/' && path[i + 1] == '/')
  }

  /**
   * A path in the form a `java.io.File` keeps it: no doubled separator, and
   * no trailing separator unless the path is the root itself.
   */
  predicate IsNormalPath(path: string)
  {
    NoDoubleSeparator(path) && (|path| > 1 ==> path[|path| - 1] != '/')
  }

  /** The non-empty names between separators in `s`, in order; `name` is the part of a name read so far. */
  function NamesFrom(s: string, name: string): seq<string>
  {
    var ended := if name == [] then [] else [name];
    if s == [] then ended
    else if s[0] == '/' then ended + NamesFrom(s[1..], [])
    else NamesFrom(s[1..], name + [s[0]])
  }

  /** The names a path is made of: "a//b/" and "a/b" both name ["a", "b"]. */
  function PathNames(path: string): seq<string>
  {
    NamesFrom(path, [])
  }

  /** The first name read from `s` continues the part `name` already read, by `s[0]` when that is no separator. */
  lemma {:induction false} FirstNameExtends(s: string, name: string)
    requires name != [] || (s != [] && s[0] != '/')
    ensures NamesFrom(s, name) != []
    ensures name <= NamesFrom(s, name)[0]
    ensures s != [] && s[0] != '/' ==> name + [s[0]] <= NamesFrom(s, name)[0]
    decreases |s|
  {
    if s != [] && s[0] != '/' {
      FirstNameExtends(s[1..], name + [s[0]]);
    }
  }

  /**
   * A non-empty rest of a path without doubled or trailing separators holds
   * a name beyond the part already read.
   */
  lemma {:induction false} RestHasNames(s: string, name: string)
    requires s != [] && NoDoubleSeparator(s) && s[|s| - 1] != '/'
    requires name == [] ==> s[0] != '/'
    ensures NamesFrom(s, name) != (if name == [] then [] else [name])
  {
    if s[0] == '/' {
      assert |s| > 1 && s[1..][0] != '/';
      FirstNameExtends(s[1..], []);
    } else {
      FirstNameExtends(s, name);
    }
  }

  /** Two rests of paths without doubled or trailing separators that read the same names are equal. */
  lemma {:induction false} SameNamesSameRest(p: string, q: string, name: string)
    requires NoDoubleSeparator(p) && (p == [] || p[|p| - 1] != '/')
    requires NoDoubleSeparator(q) && (q == [] || q[|q| - 1] != '/')
    requires name == [] ==> (p == [] || p[0] != '/') && (q == [] || q[0] != '/')
    requires NamesFrom(p, name) == NamesFrom(q, name)
    ensures p == q
    decreases |p|
  {
    if p == [] && q == [] {
    } else if p == [] {
      RestHasNames(q, name);
    } else if q == [] {
      RestHasNames(p, name);
    } else if p[0] == '/' && q[0] == '/' {
      assert |p| > 1 && p[1..][0] != '/';
      assert |q| > 1 && q[1..][0] != '/';
      var pNames, qNames := NamesFrom(p[1..], []), NamesFrom(q[1..], []);
      assert NamesFrom(p, name) == [name] + pNames && NamesFrom(q, name) == [name] + qNames;
      assert pNames == ([name] + pNames)[1..] == ([name] + qNames)[1..] == qNames;
      SameNamesSameRest(p[1..], q[1..], []);
      assert p == [p[0]] + p[1..] && q == [q[0]] + q[1..];
    } else if p[0] == '/' {
      FirstNameExtends(q, name);
    } else if q[0] == '/' {
      FirstNameExtends(p, name);
    } else {
      FirstNameExtends(p, name);
      FirstNameExtends(q, name);
      assert p[0] == NamesFrom(p, name)[0][|name|] == q[0];
      SameNamesSameRest(p[1..], q[1..], name + [p[0]]);
      assert p == [p[0]] + p[1..] && q == [q[0]] + q[1..];
    }
  }

  /** Every run of separators in `s` shortened to a single one. */
  function CollapseSeparators(s: string): (r: string)
    ensures |r| <= |s|
    ensures |r| == 0 <==> |s| == 0
    ensures |s| > 0 ==> r[0] == s[0] && r[|r| - 1] == s[|s| - 1]
    ensures NoDoubleSeparator(r)
    ensures NoDoubleSeparator(s) ==> r == s
  {
    if |s| <= 1 then s
    else if s[0] == '/' && s[1] == '/' then CollapseSeparators(s[1..])
    else [s[0]] + CollapseSeparators(s[1..])
  }

  /**
   * `new File(path).getPath()` on a platform whose separator is '/': runs
   * of separators are collapsed and a trailing separator is dropped, except
   * from the root "/".
   */
  function NormalizePath(path: string): (r: string)
    ensures IsNormalPath(r)
    ensures |r| == 0 <==> |path| == 0
    ensures IsAbsolute(r) <==> IsAbsolute(path)
    ensures IsNormalPath(path) ==> r == path
    ensures PathNames(r) == PathNames(path)
  {
    var c := CollapseSeparators(path);
    NormalizedCollapse(path);
    if |c| > 1 && c[|c| - 1] == '/' then c[..|c| - 1] else c
  }

  /** What `NormalizePath` promises, for the collapsed path without its trailing separator. */
  lemma NormalizedCollapse(path: string)
    ensures var c := CollapseSeparators(path);
      var r := if |c| > 1 && c[|c| - 1] == '/' then c[..|c| - 1] else c;
      && IsNormalPath(r)
      && (|r| == 0 <==> |path| == 0)
      && (IsAbsolute(r) <==> IsAbsolute(path))
      && (IsNormalPath(path) ==> r == path)
      && PathNames(r) == PathNames(path)
  {
    var c := CollapseSeparators(path);
    CollapseSeparatorsKeepsNames(path, []);
    assert PathNames(c) == PathNames(path);
    assert IsAbsolute(c) <==> IsAbsolute(path) by {
      if path != [] { assert c[..1] == path[..1]; }
    }
    if |c| > 1 && c[|c| - 1] == '/' {
      DropTrailingSeparator(c);
    }
  }

  /** Dropping the trailing separator of a path without doubled separators makes it normal and keeps the rest. */
  lemma DropTrailingSeparator(c: string)
    requires NoDoubleSeparator(c) && |c| > 1 && c[|c| - 1] == '/'
    ensures IsNormalPath(c[..|c| - 1]) && c[..|c| - 1] != []
    ensures IsAbsolute(c[..|c| - 1]) <==> IsAbsolute(c)
    ensures PathNames(c[..|c| - 1]) == PathNames(c)
  {
    var d := c[..|c| - 1];
    assert c == d + ['/'];
    TrailingSeparatorKeepsNames(d, []);
    assert d[..1] == c[..1];
  }

  /**
   * `NormalizePath` is fully fixed by its contract: the only normal path
   * with the names of `path` that is absolute exactly when `path` is.
   */
  lemma NormalizePathUnique(path: string, r: string)
    requires IsNormalPath(r) && PathNames(r) == PathNames(path)
    requires IsAbsolute(r) <==> IsAbsolute(path)
    ensures r == NormalizePath(path)
  {
    var n := NormalizePath(path);
    if IsAbsolute(r) {
      assert r[0] == '/' && n[0] == '/' by { assert r[..1] == n[..1] == SEPARATOR; }
      if |r| == 1 || |n| == 1 {
        assert PathNames(r) == NamesFrom(r[1..], []) && PathNames(n) == NamesFrom(n[1..], []);
        if |r| > 1 {
          RestHasNames(r[1..], []);
        } else if |n| > 1 {
          RestHasNames(n[1..], []);
        }
        assert r == [r[0]] && n == [n[0]];
      } else {
        assert r[1..][0] != '/' && n[1..][0] != '/';
        SameNamesSameRest(r[1..], n[1..], []);
        assert r == [r[0]] + r[1..] && n == [n[0]] + n[1..];
      }
    } else {
      assert r == [] || r[0] != '/' by { if r != [] { assert r[..1] != SEPARATOR; } }
      assert n == [] || n[0] != '/' by { if n != [] { assert n[..1] != SEPARATOR; } }
      SameNamesSameRest(r, n, []);
    }
  }

  /** Collapsing separator runs keeps the names of a path. */
  lemma {:induction false} CollapseSeparatorsKeepsNames(s: string, name: string)
    ensures NamesFrom(CollapseSeparators(s), name) == NamesFrom(s, name)
    decreases |s|
  {
    if |s| <= 1 {
    } else if s[0] == '/' && s[1] == '/' {
      CollapseSeparatorsKeepsNames(s[1..], name);
      assert s[1..][1..] == s[2..];
    } else {
      var rest := CollapseSeparators(s[1..]);
      assert ([s[0]] + rest)[0] == s[0] && ([s[0]] + rest)[1..] == rest;
      if s[0] == '/' {
        CollapseSeparatorsKeepsNames(s[1..], []);
      } else {
        CollapseSeparatorsKeepsNames(s[1..], name + [s[0]]);
      }
    }
  }

  /** A trailing separator adds no name. */
  lemma {:induction false} TrailingSeparatorKeepsNames(s: string, name: string)
    ensures NamesFrom(s + ['/'], name) == NamesFrom(s, name)
    decreases |s|
  {
    if s == [] {
      assert NamesFrom(['/'][1..], []) == [];
    } else {
      assert (s + ['/'])[0] == s[0] && (s + ['/'])[1..] == s[1..] + ['/'];
      if s[0] == '/' {
        TrailingSeparatorKeepsNames(s[1..], []);
      } else {
        TrailingSeparatorKeepsNames(s[1..], name + [s[0]]);
      }
    }
  }

  /**
   * Collapsing `x + y`, where `y` has no doubled separator and does not
   * start with one, collapses `x` alone and leaves `y` as it is.
   */
  lemma {:induction false} CollapseSeparatorsAppend(x: string, y: string)
    requires NoDoubleSeparator(y) && (y == [] || y[0] != '/')
    ensures CollapseSeparators(x + y) == CollapseSeparators(x) + y
    decreases |x|
  {
    if x == [] {
      assert x + y == y;
    } else {
      var rest := x[1..];
      assert x == [x[0]] + rest && x + y == [x[0]] + (rest + y);
      CollapseSeparatorsAppend(rest, y);
      CollapseSeparatorsCons(x[0], rest + y);
      CollapseSeparatorsCons(x[0], rest);
      if rest == [] {
        assert rest + y == y;
      } else {
        assert (rest + y)[0] == rest[0];
        var c := CollapseSeparators(rest);
        AppendAssociative([x[0]], c, y);
      }
    }
  }

  /** One step of `CollapseSeparators`, stated for a character in front of a string. */
  lemma CollapseSeparatorsCons(c: char, t: string)
    ensures CollapseSeparators([c] + t)
      == if t != [] && c == '/' && t[0] == '/' then CollapseSeparators(t) else [c] + CollapseSeparators(t)
  {
    assert ([c] + t)[1..] == t;
  }

  /**
   * `new File(prefix + path)` for a non-empty, normalised, relative `path`:
   * the prefix has its separator runs collapsed and the path follows
   * unchanged, so the result is longer than the path and ends with it.
   */
  lemma PrefixedNormalPath(prefix: string, path: string)
    requires IsNormalPath(path) && !IsAbsolute(path) && path != []
    ensures NormalizePath(prefix + path) == CollapseSeparators(prefix) + path
  {
    assert path[0] != '/' by { assert path[..1] != SEPARATOR; }
    CollapseSeparatorsAppend(prefix, path);
  }
}
