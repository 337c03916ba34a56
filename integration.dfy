/** Shell detection of src/shell/integration.rs: the kind of shell is read off
    the final component of the shell's path. */
module Shell {
  import opened Common
  import Paths

  datatype ShellType = Zsh | Bash | Fish | Unknown

  /** The shell a bare program name stands for; the match is exact. */
  function ShellOfName(name: string): (t: ShellType)
    ensures t == Zsh <==> name == "zsh"
    ensures t == Bash <==> name == "bash"
    ensures t == Fish <==> name == "fish"
    ensures t == Unknown <==> name !in {"zsh", "bash", "fish"}
  {
    if name == "zsh" then Zsh
    else if name == "bash" then Bash
    else if name == "fish" then Fish
    else Unknown
  }

  /** `ShellType::from_path`: a path without a final component counts as the
      empty name. */
  function FromPath(path: string): (t: ShellType)
    ensures Paths.FileName(path).None? ==> t == Unknown
    ensures Paths.FileName(path).Some? ==> t == ShellOfName(Paths.FileName(path).value)
  {
    ShellOfName(Paths.FileName(path).GetOr(""))
  }

  /** Only the final component matters: in any directory, a program name gives
      the shell it names, and a name that is not exactly "zsh", "bash" or
      "fish" (a prefix or an extension of one, say) gives `Unknown`. */
  lemma FromPathOfJoin(dir: string, name: string)
    requires Paths.IsNormalName(name)
    ensures FromPath(dir + "/" + name) == ShellOfName(name)
    ensures FromPath(dir + "/" + name) != Unknown <==> name in {"zsh", "bash", "fish"}
  {
    Paths.FileNameOfJoin(dir, name);
  }

  /** The directory prefix is irrelevant: /bin/zsh and /usr/local/bin/zsh are
      both zsh. */
  lemma FromPathDirectoryIrrelevant()
    ensures FromPath("/bin/zsh") == Zsh && FromPath("/usr/local/bin/zsh") == Zsh
  {
    assert "/bin/zsh" == "/bin" + "/" + "zsh";
    FromPathOfJoin("/bin", "zsh");
    assert "/usr/local/bin/zsh" == "/usr/local/bin" + "/" + "zsh";
    FromPathOfJoin("/usr/local/bin", "zsh");
  }

  /** A shell that is not one of the three is unknown. */
  lemma FromPathOtherShell()
    ensures FromPath("/bin/sh") == Unknown
  {
    assert "/bin/sh" == "/bin" + "/" + "sh";
    FromPathOfJoin("/bin", "sh");
  }

  /** The root and the empty path have no final component. */
  lemma FromPathNoComponent()
    ensures FromPath("/") == Unknown && FromPath("") == Unknown
  {
    assert Paths.TrimRight("/") == "/";
    assert Paths.TrimRight("") == "";
  }
}
