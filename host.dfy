/**
  What the GUI reads from its surroundings: the environment variables read
  once at start-up, the operating system calls it makes (path existence,
  directory listings for glob, path normalisation, running a runner script)
  and the answers of yes/no popups.
 */
module Host {
  import opened PyStr

  /** XAVIERDIR, XAVIERVER, SIFCACHE and HOSTNAME, each taken to be set. */
  datatype Env = Env(xavierDir: string, xavierVer: string, sifCache: string, hostname: string)

  const BiowulfHost := "biowulf.nih.gov"
  const FrceHost := "fsitgl-head01p.ncifcrf.gov"

  /** Captured standard output and standard error of one runner script. */
  datatype Output = Output(stdout: string, stderr: string)

  /**
    The operating system as the GUI sees it: `os.path.exists`, the entry names
    of a directory in enumeration order (what glob filters), `fixpath`
    (`abspath` after `expanduser`), and the output of executing a runner script
    whose text is the given command line.
   */
  datatype Os = Os(
    pathExists: string -> bool,
    listDir: string -> seq<string>,
    fixpath: string -> string,
    shell: string -> Output)

  /** What `sg.popup_yes_no` returns: "Yes", "No", or None when the popup is closed. */
  datatype Answer = Yes | No | Closed

  /** `os.path.join(XAVIERDIR, XAVIERVER)`, the installation the GUI drives. */
  function Install(env: Env): string {
    Join(env.xavierDir, env.xavierVer)
  }

  /** XAVIER: `os.path.join(XAVIERDIR, XAVIERVER, "bin", "xavier")`. */
  function XavierExe(env: Env): string {
    Join(Join(Install(env), "bin"), "xavier")
  }
}
