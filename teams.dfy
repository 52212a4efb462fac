/** Shared vocabulary: an optional value (JavaScript's `null` or a missing
    document field) and the closed set of competing teams. */
module Teams {

  /** A value that may be absent; `None` stands for `null` / `undefined`. */
  datatype Option<+T> = None | Some(value: T) {
    /** JavaScript's `x || d` on a numeric field read as "the field, or `d` if missing". */
    function GetOr(default: T): T {
      match this
      case Some(v) => v
      case None => default
    }
  }

  /** The three fanbases, by the keys the source uses: 'gs', 'fb', 'ts'. */
  datatype Team = GS | FB | TS {
    /** The display name the statistics view uses for the team. */
    function Name(): string {
      match this
      case GS => "GALATASARAY"
      case FB => "FENERBAHÇE"
      case TS => "BEŞİKTAŞ"
    }
  }
}
