/** The arguments a command may carry: tokens, and names whose files cannot be mistaken for another's. */
module Names {
  import opened Text
  import opened Handlers

  ghost predicate EndsWith(s: string, tag: string) {
    |s| >= |tag| && s[|s| - |tag|..] == tag
  }

  /** A word that can be part of a file name. */
  ghost predicate NamePart(w: string) {
    w != "" && Token(w) && '/' !in w
  }

  /** A group whose member file is no other group's file list. */
  ghost predicate GroupName(g: string) {
    NamePart(g) && !EndsWith(g, "_files")
  }

  /** A user whose file list is no other user's ledger. */
  ghost predicate UserName(u: string) {
    NamePart(u) && !EndsWith(u, "_downloading") && !EndsWith(u, "_downloaded")
  }

  ghost predicate Proper(c: Command) {
    match c
    case Login(u, _, port, ip) => UserName(u) && Token(port) && Token(ip)
    case CreateUser(u, _, port, ip, salt) => UserName(u) && Token(port) && Token(ip) && Token(salt)
    case CreateGroup(g, u) => GroupName(g) && UserName(u)
    case ListGroups => true
    case ListRequests(g, u) => GroupName(g) && UserName(u)
    case ListFiles(g) => GroupName(g)
    case JoinGroup(g, u) => GroupName(g) && UserName(u)
    case AcceptRequest(g, u, owner) => GroupName(g) && UserName(u) && UserName(owner)
    case Upload(hash, size, g, u, name, path) =>
      GroupName(g) && UserName(u) && Token(hash) && Token(size) && Token(name) && Token(path)
    case StopShare(g, name, u) => GroupName(g) && UserName(u) && Token(name)
    case LeaveGroup(g, u) => GroupName(g) && UserName(u)
    case GiveSha(g, name, u) => GroupName(g) && UserName(u) && Token(name)
    case GiveSeeders(g, name) => GroupName(g) && Token(name)
    case GiveDetails(u) => UserName(u)
    case SendFullPath(u, g, name) => GroupName(g) && UserName(u) && Token(name)
    case AddFile(g, name, path, u) => GroupName(g) && UserName(u) && Token(name) && Token(path)
    case Complete(g, name, u) => GroupName(g) && UserName(u) && Token(name)
    case ShowDownloads(u) => UserName(u)
    case Logout(u) => UserName(u)
  }
}
