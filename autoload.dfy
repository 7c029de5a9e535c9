/**
 * The package's autoloader: a class name under the `Vendor\TrackingPackage\`
 * namespace prefix maps to a file under the package's `src` directory, with
 * the namespace separators turned into directory separators (the rule of
 * section 2 of PSR-4, the PHP-FIG autoloader recommendation). Whether the
 * file exists is an input.
 */
module Autoload {
  import opened Options
  import Php

  /** `'Vendor\\TrackingPackage\\'`: 23 characters, ending in a namespace separator. */
  const Prefix := "Vendor\\TrackingPackage\\"

  /** `strncmp($prefix, $class, strlen($prefix)) === 0`. */
  predicate HasPrefix(className: string) {
    |Prefix| <= |className| && className[..|Prefix|] == Prefix
  }

  /**
   * The file for a class name, or `None` when the name is outside the
   * prefix: `$base_dir` (the directory and '/'), the relative class name
   * with every '\' replaced by '/', then `.php`.
   */
  function ClassFile(className: string, dir: string): (r: Option<string>)
    ensures r.None? <==> !HasPrefix(className)
  {
    if !HasPrefix(className) then None
    else Some(dir + "/" + Php.ReplaceChar(className[|Prefix|..], '\\', '/') + ".php")
  }

  /** The file `require`d for a class name: its file, when that file exists. */
  function Load(className: string, dir: string, existing: set<string>): (r: Option<string>)
    ensures r.Some? ==> r == ClassFile(className, dir) && r.value in existing
    ensures r.None? ==> ClassFile(className, dir).None? || ClassFile(className, dir).value !in existing
  {
    match ClassFile(className, dir)
    case Some(file) => if file in existing then Some(file) else None
    case None => None
  }

  /**
   * The inverse: the class name a file under the directory stands for, or
   * `None` when the path is not `<dir>/….php`.
   */
  function ClassOfFile(file: string, dir: string): Option<string> {
    var base := dir + "/";
    if |file| < |base| + 4 || file[..|base|] != base || file[|file| - 4..] != ".php" then None
    else Some(Prefix + Php.ReplaceChar(file[|base|..|file| - 4], '/', '\\'))
  }

  /** A name whose first 23 characters are not the prefix loads nothing, whatever exists. */
  lemma OutsidePrefixLoadsNothing(className: string, dir: string, existing: set<string>)
    requires !HasPrefix(className)
    ensures Load(className, dir, existing).None?
  {
  }

  /**
   * The file is the directory, '/', the relative class name (the input
   * without the prefix) with '\' turned into '/', and `.php`; it has no '\'
   * left in its relative part.
   */
  lemma ClassFileShape(className: string, dir: string)
    requires HasPrefix(className)
    ensures var file := ClassFile(className, dir).value;
      var rel := className[|Prefix|..];
      className == Prefix + rel
      && |file| == |dir| + 1 + |rel| + 4
      && file[..|dir| + 1] == dir + "/"
      && file[|file| - 4..] == ".php"
      && file[|dir| + 1..|file| - 4] == Php.ReplaceChar(rel, '\\', '/')
      && '\\' !in file[|dir| + 1..|file| - 4]
  {
    var rel := className[|Prefix|..];
    var mid := Php.ReplaceChar(rel, '\\', '/');
    var file := dir + "/" + mid + ".php";
    assert file[..|dir| + 1] == dir + "/";
    assert file[|file| - 4..] == ".php";
    assert file[|dir| + 1..|file| - 4] == mid;
  }

  /**
   * Round trip: a class name under the prefix (which, being a PHP name,
   * holds no '/') is recovered from its file.
   */
  lemma {:induction false} ClassFileRoundTrip(className: string, dir: string)
    requires HasPrefix(className) && '/' !in className
    ensures ClassOfFile(ClassFile(className, dir).value, dir) == Some(className)
  {
    var rel := className[|Prefix|..];
    ClassFileShape(className, dir);
    assert '/' !in rel by {
      assert forall i | 0 <= i < |rel| :: rel[i] == className[|Prefix| + i];
    }
    Php.ReplaceCharUndo(rel, '\\', '/');
  }

  /** Two class names under the prefix never share a file. */
  lemma ClassFileInjective(a: string, b: string, dir: string)
    requires HasPrefix(a) && '/' !in a && HasPrefix(b) && '/' !in b
    requires ClassFile(a, dir) == ClassFile(b, dir)
    ensures a == b
  {
    ClassFileRoundTrip(a, dir);
    ClassFileRoundTrip(b, dir);
  }

  /** A name made of the prefix and a relative name maps to that relative name's file. */
  lemma ClassFileOfRelative(rel: string, dir: string)
    ensures ClassFile(Prefix + rel, dir) == Some(dir + "/" + Php.ReplaceChar(rel, '\\', '/') + ".php")
  {
    assert (Prefix + rel)[..|Prefix|] == Prefix;
    assert (Prefix + rel)[|Prefix|..] == rel;
  }

  /** One namespace separator between two plain names becomes one directory separator. */
  lemma OneSeparator(a: string, b: string)
    requires '\\' !in a && '\\' !in b
    ensures Php.ReplaceChar(a + "\\" + b, '\\', '/') == a + "/" + b
  {
    Php.ReplaceCharConcat(a + "\\", b, '\\', '/');
    Php.ReplaceCharConcat(a, "\\", '\\', '/');
    Php.ReplaceCharAbsent(a, '\\', '/');
    Php.ReplaceCharAbsent(b, '\\', '/');
  }

  /**
   * The package's console command class, `Vendor\TrackingPackage\Commands\TrackingCommand`,
   * loads `<dir>/Commands/TrackingCommand.php`.
   */
  lemma CommandClassExample(dir: string)
    ensures ClassFile(Prefix + ("Commands" + "\\" + "TrackingCommand"), dir)
            == Some(dir + "/" + ("Commands" + "/" + "TrackingCommand") + ".php")
  {
    ClassFileOfRelative("Commands" + "\\" + "TrackingCommand", dir);
    OneSeparator("Commands", "TrackingCommand");
  }
}
