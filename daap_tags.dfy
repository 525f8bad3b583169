/**
 * The DMAP/DAAP content-code registry (`tag2info` in daap.js). Tags are numbered
 * by their position in the registry, which is also the order in which start-up
 * walks the registry to build the reverse table from descriptor to tag
 * (`desc2tag`). For every tag the registry gives its four-character code, its
 * dotted descriptor, its numeric wire type and, for the tags a song listing
 * carries, the song-record field the value is taken from.
 */
module DaapTags {
  import opened Wrappers

  const TagCount: nat := 115

  /** A registered tag: its position in the registry. */
  newtype Tag = i: int | 0 <= i < 115

  /**
   * One registry entry. `wire` is the numeric wire type: 1 byte, 3 two-byte
   * integer, 5 four-byte integer, 7 eight-byte integer, 9 string, 10 date,
   * 11 version, 12 container; the types 2 and 6 appear in the registry but no
   * encoder handles them.
   */
  datatype TagInfo = TagInfo(code: string, desc: string, wire: int, field: Option<string>)

  const Miid: Tag := 0
  const Minm: Tag := 1
  const Mikd: Tag := 2
  const Mper: Tag := 3
  const Mcon: Tag := 4
  const Mcti: Tag := 5
  const Mpco: Tag := 6
  const Mstt: Tag := 7
  const Msts: Tag := 8
  const Mimc: Tag := 9
  const Mctc: Tag := 10
  const Mrco: Tag := 11
  const Mtco: Tag := 12
  const Mlcl: Tag := 13
  const Mlit: Tag := 14
  const Mbcl: Tag := 15
  const Mdcl: Tag := 16
  const Msrv: Tag := 17
  const Msau: Tag := 18
  const Msas: Tag := 19
  const Mslr: Tag := 20
  const Mpro: Tag := 21
  const Msal: Tag := 22
  const Msup: Tag := 23
  const Mspi: Tag := 24
  const Msex: Tag := 25
  const Msbr: Tag := 26
  const Msqy: Tag := 27
  const Msix: Tag := 28
  const Msrs: Tag := 29
  const Mstm: Tag := 30
  const Msdc: Tag := 31
  const Mstc: Tag := 32
  const Msto: Tag := 33
  const Mlog: Tag := 34
  const Mlid: Tag := 35
  const Mupd: Tag := 36
  const Musr: Tag := 37
  const Muty: Tag := 38
  const Mudl: Tag := 39
  const Mccr: Tag := 40
  const Mcnm: Tag := 41
  const Mcna: Tag := 42
  const Mcty: Tag := 43
  const Meds: Tag := 44
  const Ated: Tag := 45
  const Apro: Tag := 46
  const Avdb: Tag := 47
  const Abro: Tag := 48
  const Adbs: Tag := 49
  const Aply: Tag := 50
  const Apso: Tag := 51
  const Arsv: Tag := 52
  const Arif: Tag := 53
  const Abal: Tag := 54
  const Abar: Tag := 55
  const Abcp: Tag := 56
  const Abgn: Tag := 57
  const AePP: Tag := 58
  const Asal: Tag := 59
  const Asar: Tag := 60
  const Asbr: Tag := 61
  const Ascm: Tag := 62
  const Asco: Tag := 63
  const Ascp: Tag := 64
  const Asda: Tag := 65
  const Asdm: Tag := 66
  const Asdc: Tag := 67
  const Asdn: Tag := 68
  const Aseq: Tag := 69
  const Asgn: Tag := 70
  const Asdt: Tag := 71
  const Asrv: Tag := 72
  const Assr: Tag := 73
  const Assz: Tag := 74
  const Asst: Tag := 75
  const Assp: Tag := 76
  const Astm: Tag := 77
  const Astc: Tag := 78
  const Astn: Tag := 79
  const Asur: Tag := 80
  const Asyr: Tag := 81
  const Asfm: Tag := 82
  const Asdb: Tag := 83
  const Asdk: Tag := 84
  const Asul: Tag := 85
  const Asbt: Tag := 86
  const Abpl: Tag := 87
  const Agrp: Tag := 88
  const Ascd: Tag := 89
  const Ascs: Tag := 90
  const Apsm: Tag := 91
  const Aprm: Tag := 92
  const Asct: Tag := 93
  const Ascn: Tag := 94
  const Aslc: Tag := 95
  const Asky: Tag := 96
  const Ascr: Tag := 97
  const Asgp: Tag := 98
  const Asdr: Tag := 99
  const Asdp: Tag := 100
  const Ashp: Tag := 101
  const Assn: Tag := 102
  const Assa: Tag := 103
  const Assl: Tag := 104
  const Assu: Tag := 105
  const Assc: Tag := 106
  const Asss: Tag := 107
  const Asbk: Tag := 108
  const Asbo: Tag := 109
  const Aspu: Tag := 110
  const Asai: Tag := 111
  const Asls: Tag := 112
  const Asaa: Tag := 113
  const AeSP: Tag := 114

  /**
   * The registry entry of a tag. The table is written as a balanced decision on
   * the registry position so that looking one entry up costs the verifier a few
   * comparisons.
   */
  function Info(t: Tag): TagInfo
  {
    if t < 57 then
      if t < 28 then
        if t < 14 then
          if t < 7 then
            if t < 3 then
              if t < 1 then
                TagInfo("miid", "dmap.itemid", 5, Some("id"))
              else
                if t < 2 then
                  TagInfo("minm", "dmap.itemname", 9, Some("title"))
                else
                  TagInfo("mikd", "dmap.itemkind", 1, Some("kind"))
            else
              if t < 5 then
                if t < 4 then
                  TagInfo("mper", "dmap.persistentid", 7, Some("id"))
                else
                  TagInfo("mcon", "dmap.container", 12, None)
              else
                if t < 6 then
                  TagInfo("mcti", "dmap.containeritemid", 5, Some("id"))
                else
                  TagInfo("mpco", "dmap.parentcontainerid", 5, None)
          else
            if t < 10 then
              if t < 8 then
                TagInfo("mstt", "dmap.status", 5, None)
              else
                if t < 9 then
                  TagInfo("msts", "dmap.statusstring", 9, None)
                else
                  TagInfo("mimc", "dmap.itemcount", 5, None)
            else
              if t < 12 then
                if t < 11 then
                  TagInfo("mctc", "dmap.containercount", 5, None)
                else
                  TagInfo("mrco", "dmap.returnedcount", 5, None)
              else
                if t < 13 then
                  TagInfo("mtco", "dmap.specifiedtotalcount", 5, None)
                else
                  TagInfo("mlcl", "dmap.listing", 12, None)
        else
          if t < 21 then
            if t < 17 then
              if t < 15 then
                TagInfo("mlit", "dmap.listingitem", 12, None)
              else
                if t < 16 then
                  TagInfo("mbcl", "dmap.bag", 12, None)
                else
                  TagInfo("mdcl", "dmap.dictionary", 12, None)
            else
              if t < 19 then
                if t < 18 then
                  TagInfo("msrv", "dmap.serverinforesponse", 12, None)
                else
                  TagInfo("msau", "dmap.authenticationmethod", 1, None)
              else
                if t < 20 then
                  TagInfo("msas", "dmap.authenticationschemes", 5, None)
                else
                  TagInfo("mslr", "dmap.loginrequired", 1, None)
          else
            if t < 24 then
              if t < 22 then
                TagInfo("mpro", "dmap.protocolversion", 11, None)
              else
                if t < 23 then
                  TagInfo("msal", "dmap.supportsautologout", 1, None)
                else
                  TagInfo("msup", "dmap.supportsupdate", 1, None)
            else
              if t < 26 then
                if t < 25 then
                  TagInfo("mspi", "dmap.supportspersistentids", 1, None)
                else
                  TagInfo("msex", "dmap.supportsextensions", 1, None)
              else
                if t < 27 then
                  TagInfo("msbr", "dmap.supportsbrowse", 1, None)
                else
                  TagInfo("msqy", "dmap.supportsquery", 1, None)
      else
        if t < 42 then
          if t < 35 then
            if t < 31 then
              if t < 29 then
                TagInfo("msix", "dmap.supportsindex", 1, None)
              else
                if t < 30 then
                  TagInfo("msrs", "dmap.supportsresolve", 1, None)
                else
                  TagInfo("mstm", "dmap.timeoutinterval", 5, None)
            else
              if t < 33 then
                if t < 32 then
                  TagInfo("msdc", "dmap.databasescount", 5, None)
                else
                  TagInfo("mstc", "dmap.utctime", 10, None)
              else
                if t < 34 then
                  TagInfo("msto", "dmap.utcoffset", 6, None)
                else
                  TagInfo("mlog", "dmap.loginresponse", 12, None)
          else
            if t < 38 then
              if t < 36 then
                TagInfo("mlid", "dmap.sessionid", 5, None)
              else
                if t < 37 then
                  TagInfo("mupd", "dmap.updateresponse", 12, None)
                else
                  TagInfo("musr", "dmap.serverrevision", 5, None)
            else
              if t < 40 then
                if t < 39 then
                  TagInfo("muty", "dmap.updatetype", 1, None)
                else
                  TagInfo("mudl", "dmap.deletedid", 12, None)
              else
                if t < 41 then
                  TagInfo("mccr", "dmap.contentcodesresponse", 12, None)
                else
                  TagInfo("mcnm", "dmap.contentcodesnumber", 5, None)
        else
          if t < 49 then
            if t < 45 then
              if t < 43 then
                TagInfo("mcna", "dmap.contentcodesname", 9, None)
              else
                if t < 44 then
                  TagInfo("mcty", "dmap.contentcodestype", 3, None)
                else
                  TagInfo("meds", "dmap.editcommandssupported", 5, None)
            else
              if t < 47 then
                if t < 46 then
                  TagInfo("ated", "daap.supportsextradata", 3, None)
                else
                  TagInfo("apro", "daap.protocolversion", 11, None)
              else
                if t < 48 then
                  TagInfo("avdb", "daap.serverdatabases", 12, None)
                else
                  TagInfo("abro", "daap.databasebrowse", 12, None)
          else
            if t < 53 then
              if t < 51 then
                if t < 50 then
                  TagInfo("adbs", "daap.databasesongs", 12, None)
                else
                  TagInfo("aply", "daap.databaseplaylists", 12, None)
              else
                if t < 52 then
                  TagInfo("apso", "daap.playlistsongs", 12, None)
                else
                  TagInfo("arsv", "daap.resolve", 12, None)
            else
              if t < 55 then
                if t < 54 then
                  TagInfo("arif", "daap.resolveinfo", 12, None)
                else
                  TagInfo("abal", "daap.browsealbumlisting", 12, None)
              else
                if t < 56 then
                  TagInfo("abar", "daap.browseartistlisting", 12, None)
                else
                  TagInfo("abcp", "daap.browsecomposerlisting", 12, None)
    else
      if t < 86 then
        if t < 71 then
          if t < 64 then
            if t < 60 then
              if t < 58 then
                TagInfo("abgn", "daap.browsegenrelisting", 12, None)
              else
                if t < 59 then
                  TagInfo("aePP", "com.apple.itunes.is-podcast-playlist", 1, None)
                else
                  TagInfo("asal", "daap.songalbum", 9, Some("album"))
            else
              if t < 62 then
                if t < 61 then
                  TagInfo("asar", "daap.songartist", 9, Some("artist"))
                else
                  TagInfo("asbr", "daap.songbitrate", 3, None)
              else
                if t < 63 then
                  TagInfo("ascm", "daap.songcomment", 9, None)
                else
                  TagInfo("asco", "daap.songcompilation", 1, None)
          else
            if t < 67 then
              if t < 65 then
                TagInfo("ascp", "daap.songcomposer", 9, None)
              else
                if t < 66 then
                  TagInfo("asda", "daap.songdateadded", 10, None)
                else
                  TagInfo("asdm", "daap.songdatemodified", 10, None)
            else
              if t < 69 then
                if t < 68 then
                  TagInfo("asdc", "daap.songdisccount", 3, None)
                else
                  TagInfo("asdn", "daap.songdiscnumber", 3, None)
              else
                if t < 70 then
                  TagInfo("aseq", "daap.songeqpreset", 9, None)
                else
                  TagInfo("asgn", "daap.songgenre", 9, Some("genre"))
        else
          if t < 78 then
            if t < 74 then
              if t < 72 then
                TagInfo("asdt", "daap.songdescription", 9, None)
              else
                if t < 73 then
                  TagInfo("asrv", "daap.songrelativevolume", 2, None)
                else
                  TagInfo("assr", "daap.songsamplerate", 5, None)
            else
              if t < 76 then
                if t < 75 then
                  TagInfo("assz", "daap.songsize", 5, None)
                else
                  TagInfo("asst", "daap.songstarttime", 5, None)
              else
                if t < 77 then
                  TagInfo("assp", "daap.songstoptime", 5, None)
                else
                  TagInfo("astm", "daap.songtime", 5, Some("time"))
          else
            if t < 82 then
              if t < 80 then
                if t < 79 then
                  TagInfo("astc", "daap.songtrackcount", 3, None)
                else
                  TagInfo("astn", "daap.songtracknumber", 3, Some("track"))
              else
                if t < 81 then
                  TagInfo("asur", "daap.songuserrating", 1, None)
                else
                  TagInfo("asyr", "daap.songyear", 3, Some("year"))
            else
              if t < 84 then
                if t < 83 then
                  TagInfo("asfm", "daap.songformat", 9, Some("format"))
                else
                  TagInfo("asdb", "daap.songdisabled", 1, None)
              else
                if t < 85 then
                  TagInfo("asdk", "daap.songdatakind", 1, None)
                else
                  TagInfo("asul", "daap.songdataurl", 9, None)
      else
        if t < 100 then
          if t < 93 then
            if t < 89 then
              if t < 87 then
                TagInfo("asbt", "daap.songbeatsperminute", 3, None)
              else
                if t < 88 then
                  TagInfo("abpl", "daap.baseplaylist", 1, None)
                else
                  TagInfo("agrp", "daap.songgrouping", 9, None)
            else
              if t < 91 then
                if t < 90 then
                  TagInfo("ascd", "daap.songcodectype", 5, None)
                else
                  TagInfo("ascs", "daap.songcodecsubtype", 5, None)
              else
                if t < 92 then
                  TagInfo("apsm", "daap.playlistshufflemode", 1, None)
                else
                  TagInfo("aprm", "daap.playlistrepeatmode", 1, None)
          else
            if t < 96 then
              if t < 94 then
                TagInfo("asct", "daap.songcategory", 9, None)
              else
                if t < 95 then
                  TagInfo("ascn", "daap.songcontentdescription", 9, None)
                else
                  TagInfo("aslc", "daap.songlongcontentdescription", 9, None)
            else
              if t < 98 then
                if t < 97 then
                  TagInfo("asky", "daap.songkeywords", 9, None)
                else
                  TagInfo("ascr", "daap.songcontentrating", 1, None)
              else
                if t < 99 then
                  TagInfo("asgp", "daap.songgapless", 1, None)
                else
                  TagInfo("asdr", "daap.songdatereleased", 10, None)
        else
          if t < 107 then
            if t < 103 then
              if t < 101 then
                TagInfo("asdp", "daap.songdatepurchased", 10, None)
              else
                if t < 102 then
                  TagInfo("ashp", "daap.songhasbeenplayed", 1, None)
                else
                  TagInfo("assn", "daap.sortname", 9, None)
            else
              if t < 105 then
                if t < 104 then
                  TagInfo("assa", "daap.sortartist", 9, None)
                else
                  TagInfo("assl", "daap.sortalbumartist", 9, None)
              else
                if t < 106 then
                  TagInfo("assu", "daap.sortalbum", 9, None)
                else
                  TagInfo("assc", "daap.sortcomposer", 9, None)
          else
            if t < 111 then
              if t < 109 then
                if t < 108 then
                  TagInfo("asss", "daap.sortseriesname", 9, None)
                else
                  TagInfo("asbk", "daap.bookmarkable", 1, None)
              else
                if t < 110 then
                  TagInfo("asbo", "daap.songbookmark", 5, None)
                else
                  TagInfo("aspu", "daap.songpodcasturl", 9, None)
            else
              if t < 113 then
                if t < 112 then
                  TagInfo("asai", "daap.songalbumid", 7, None)
                else
                  TagInfo("asls", "daap.songlongsize", 7, None)
              else
                if t < 114 then
                  TagInfo("asaa", "daap.songalbumartist", 9, None)
                else
                  TagInfo("aeSP", "com.apple.itunes.smart-playlist", 1, None)
  }

  function Code(t: Tag): string { Info(t).code }
  function Desc(t: Tag): string { Info(t).desc }
  function Wire(t: Tag): int { Info(t).wire }
  function Field(t: Tag): Option<string> { Info(t).field }

  /** The registry position of the tag whose code is `s`, or -1. */
  function CodeIndex(s: string): int
  {
    if |s| != 4 || !(s[0] as int < 128 && s[1] as int < 128 && s[2] as int < 128 && s[3] as int < 128) then -1
    else match (s[0], s[1], s[2], s[3])
      case ('m', 'i', 'i', 'd') => 0
      case ('m', 'i', 'n', 'm') => 1
      case ('m', 'i', 'k', 'd') => 2
      case ('m', 'p', 'e', 'r') => 3
      case ('m', 'c', 'o', 'n') => 4
      case ('m', 'c', 't', 'i') => 5
      case ('m', 'p', 'c', 'o') => 6
      case ('m', 's', 't', 't') => 7
      case ('m', 's', 't', 's') => 8
      case ('m', 'i', 'm', 'c') => 9
      case ('m', 'c', 't', 'c') => 10
      case ('m', 'r', 'c', 'o') => 11
      case ('m', 't', 'c', 'o') => 12
      case ('m', 'l', 'c', 'l') => 13
      case ('m', 'l', 'i', 't') => 14
      case ('m', 'b', 'c', 'l') => 15
      case ('m', 'd', 'c', 'l') => 16
      case ('m', 's', 'r', 'v') => 17
      case ('m', 's', 'a', 'u') => 18
      case ('m', 's', 'a', 's') => 19
      case ('m', 's', 'l', 'r') => 20
      case ('m', 'p', 'r', 'o') => 21
      case ('m', 's', 'a', 'l') => 22
      case ('m', 's', 'u', 'p') => 23
      case ('m', 's', 'p', 'i') => 24
      case ('m', 's', 'e', 'x') => 25
      case ('m', 's', 'b', 'r') => 26
      case ('m', 's', 'q', 'y') => 27
      case ('m', 's', 'i', 'x') => 28
      case ('m', 's', 'r', 's') => 29
      case ('m', 's', 't', 'm') => 30
      case ('m', 's', 'd', 'c') => 31
      case ('m', 's', 't', 'c') => 32
      case ('m', 's', 't', 'o') => 33
      case ('m', 'l', 'o', 'g') => 34
      case ('m', 'l', 'i', 'd') => 35
      case ('m', 'u', 'p', 'd') => 36
      case ('m', 'u', 's', 'r') => 37
      case ('m', 'u', 't', 'y') => 38
      case ('m', 'u', 'd', 'l') => 39
      case ('m', 'c', 'c', 'r') => 40
      case ('m', 'c', 'n', 'm') => 41
      case ('m', 'c', 'n', 'a') => 42
      case ('m', 'c', 't', 'y') => 43
      case ('m', 'e', 'd', 's') => 44
      case ('a', 't', 'e', 'd') => 45
      case ('a', 'p', 'r', 'o') => 46
      case ('a', 'v', 'd', 'b') => 47
      case ('a', 'b', 'r', 'o') => 48
      case ('a', 'd', 'b', 's') => 49
      case ('a', 'p', 'l', 'y') => 50
      case ('a', 'p', 's', 'o') => 51
      case ('a', 'r', 's', 'v') => 52
      case ('a', 'r', 'i', 'f') => 53
      case ('a', 'b', 'a', 'l') => 54
      case ('a', 'b', 'a', 'r') => 55
      case ('a', 'b', 'c', 'p') => 56
      case ('a', 'b', 'g', 'n') => 57
      case ('a', 'e', 'P', 'P') => 58
      case ('a', 's', 'a', 'l') => 59
      case ('a', 's', 'a', 'r') => 60
      case ('a', 's', 'b', 'r') => 61
      case ('a', 's', 'c', 'm') => 62
      case ('a', 's', 'c', 'o') => 63
      case ('a', 's', 'c', 'p') => 64
      case ('a', 's', 'd', 'a') => 65
      case ('a', 's', 'd', 'm') => 66
      case ('a', 's', 'd', 'c') => 67
      case ('a', 's', 'd', 'n') => 68
      case ('a', 's', 'e', 'q') => 69
      case ('a', 's', 'g', 'n') => 70
      case ('a', 's', 'd', 't') => 71
      case ('a', 's', 'r', 'v') => 72
      case ('a', 's', 's', 'r') => 73
      case ('a', 's', 's', 'z') => 74
      case ('a', 's', 's', 't') => 75
      case ('a', 's', 's', 'p') => 76
      case ('a', 's', 't', 'm') => 77
      case ('a', 's', 't', 'c') => 78
      case ('a', 's', 't', 'n') => 79
      case ('a', 's', 'u', 'r') => 80
      case ('a', 's', 'y', 'r') => 81
      case ('a', 's', 'f', 'm') => 82
      case ('a', 's', 'd', 'b') => 83
      case ('a', 's', 'd', 'k') => 84
      case ('a', 's', 'u', 'l') => 85
      case ('a', 's', 'b', 't') => 86
      case ('a', 'b', 'p', 'l') => 87
      case ('a', 'g', 'r', 'p') => 88
      case ('a', 's', 'c', 'd') => 89
      case ('a', 's', 'c', 's') => 90
      case ('a', 'p', 's', 'm') => 91
      case ('a', 'p', 'r', 'm') => 92
      case ('a', 's', 'c', 't') => 93
      case ('a', 's', 'c', 'n') => 94
      case ('a', 's', 'l', 'c') => 95
      case ('a', 's', 'k', 'y') => 96
      case ('a', 's', 'c', 'r') => 97
      case ('a', 's', 'g', 'p') => 98
      case ('a', 's', 'd', 'r') => 99
      case ('a', 's', 'd', 'p') => 100
      case ('a', 's', 'h', 'p') => 101
      case ('a', 's', 's', 'n') => 102
      case ('a', 's', 's', 'a') => 103
      case ('a', 's', 's', 'l') => 104
      case ('a', 's', 's', 'u') => 105
      case ('a', 's', 's', 'c') => 106
      case ('a', 's', 's', 's') => 107
      case ('a', 's', 'b', 'k') => 108
      case ('a', 's', 'b', 'o') => 109
      case ('a', 's', 'p', 'u') => 110
      case ('a', 's', 'a', 'i') => 111
      case ('a', 's', 'l', 's') => 112
      case ('a', 's', 'a', 'a') => 113
      case ('a', 'e', 'S', 'P') => 114
      case _ => -1
  }

  /** `tag2info[s]`: the registered tag whose code is `s`. */
  function TagOf(s: string): (r: Option<Tag>)
    ensures r.Some? ==> |s| == 4 && forall i :: 0 <= i < 4 ==> s[i] as int < 128
  {
    var k := CodeIndex(s);
    if 0 <= k < TagCount then Some(k as Tag) else None
  }

  /**
   * A second, independent index of the descriptors, dispatched on their length.
   * It serves only to show that no two tags share a descriptor.
   */
  ghost function DescIndex(d: string): int
  {
    match |d|
    case 8 =>
      (match d
       case "dmap.bag" => 15
       case _ => -1)
    case 11 =>
      (match d
       case "dmap.itemid" => 0
       case "dmap.status" => 7
       case _ => -1)
    case 12 =>
      (match d
       case "dmap.listing" => 13
       case "dmap.utctime" => 32
       case "daap.resolve" => 52
       case _ => -1)
    case 13 =>
      (match d
       case "dmap.itemname" => 1
       case "dmap.itemkind" => 2
       case "daap.songsize" => 74
       case "daap.songtime" => 77
       case "daap.songyear" => 81
       case "daap.sortname" => 102
       case _ => -1)
    case 14 =>
      (match d
       case "dmap.container" => 4
       case "dmap.itemcount" => 9
       case "dmap.utcoffset" => 33
       case "dmap.sessionid" => 35
       case "dmap.deletedid" => 39
       case "daap.songalbum" => 59
       case "daap.songgenre" => 70
       case "daap.sortalbum" => 105
       case _ => -1)
    case 15 =>
      (match d
       case "dmap.dictionary" => 16
       case "dmap.updatetype" => 38
       case "daap.songartist" => 60
       case "daap.songformat" => 82
       case "daap.sortartist" => 103
       case _ => -1)
    case 16 =>
      (match d
       case "dmap.listingitem" => 14
       case "daap.resolveinfo" => 53
       case "daap.songbitrate" => 61
       case "daap.songcomment" => 62
       case "daap.songdataurl" => 85
       case "daap.songgapless" => 98
       case "daap.songalbumid" => 111
       case _ => -1)
    case 17 =>
      (match d
       case "dmap.persistentid" => 3
       case "dmap.statusstring" => 8
       case "daap.songcomposer" => 64
       case "daap.songeqpreset" => 69
       case "daap.songstoptime" => 76
       case "daap.songdisabled" => 83
       case "daap.songdatakind" => 84
       case "daap.baseplaylist" => 87
       case "daap.songgrouping" => 88
       case "daap.songcategory" => 93
       case "daap.songkeywords" => 96
       case "daap.sortcomposer" => 106
       case "daap.bookmarkable" => 108
       case "daap.songbookmark" => 109
       case "daap.songlongsize" => 112
       case _ => -1)
    case 18 =>
      (match d
       case "dmap.returnedcount" => 11
       case "dmap.loginrequired" => 20
       case "dmap.supportsquery" => 27
       case "dmap.supportsindex" => 28
       case "dmap.loginresponse" => 34
       case "daap.databasesongs" => 49
       case "daap.playlistsongs" => 51
       case "daap.songdateadded" => 65
       case "daap.songdisccount" => 67
       case "daap.songstarttime" => 75
       case "daap.songcodectype" => 89
       case _ => -1)
    case 19 =>
      (match d
       case "dmap.containercount" => 10
       case "dmap.supportsupdate" => 23
       case "dmap.supportsbrowse" => 26
       case "dmap.databasescount" => 31
       case "dmap.updateresponse" => 36
       case "dmap.serverrevision" => 37
       case "daap.databasebrowse" => 48
       case "daap.songdiscnumber" => 68
       case "daap.songsamplerate" => 73
       case "daap.songtrackcount" => 78
       case "daap.songuserrating" => 80
       case "daap.sortseriesname" => 107
       case "daap.songpodcasturl" => 110
       case _ => -1)
    case 20 =>
      (match d
       case "dmap.containeritemid" => 5
       case "dmap.protocolversion" => 21
       case "dmap.supportsresolve" => 29
       case "dmap.timeoutinterval" => 30
       case "daap.protocolversion" => 46
       case "daap.serverdatabases" => 47
       case "daap.songcompilation" => 63
       case "daap.songdescription" => 71
       case "daap.songtracknumber" => 79
       case "daap.sortalbumartist" => 104
       case "daap.songalbumartist" => 113
       case _ => -1)
    case 21 =>
      (match d
       case "dmap.contentcodesname" => 42
       case "dmap.contentcodestype" => 43
       case "daap.songdatemodified" => 66
       case "daap.songcodecsubtype" => 90
       case "daap.songdatereleased" => 99
       case _ => -1)
    case 22 =>
      (match d
       case "dmap.parentcontainerid" => 6
       case "daap.supportsextradata" => 45
       case "daap.databaseplaylists" => 50
       case "daap.songcontentrating" => 97
       case "daap.songdatepurchased" => 100
       case "daap.songhasbeenplayed" => 101
       case _ => -1)
    case 23 =>
      (match d
       case "dmap.serverinforesponse" => 17
       case "dmap.supportsautologout" => 22
       case "dmap.supportsextensions" => 25
       case "dmap.contentcodesnumber" => 41
       case "daap.browsealbumlisting" => 54
       case "daap.browsegenrelisting" => 57
       case "daap.songrelativevolume" => 72
       case "daap.songbeatsperminute" => 86
       case "daap.playlistrepeatmode" => 92
       case _ => -1)
    case 24 =>
      (match d
       case "dmap.specifiedtotalcount" => 12
       case "daap.browseartistlisting" => 55
       case "daap.playlistshufflemode" => 91
       case _ => -1)
    case 25 =>
      (match d
       case "dmap.authenticationmethod" => 18
       case "dmap.contentcodesresponse" => 40
       case _ => -1)
    case 26 =>
      (match d
       case "dmap.authenticationschemes" => 19
       case "dmap.supportspersistentids" => 24
       case "dmap.editcommandssupported" => 44
       case "daap.browsecomposerlisting" => 56
       case _ => -1)
    case 27 =>
      (match d
       case "daap.songcontentdescription" => 94
       case _ => -1)
    case 31 =>
      (match d
       case "daap.songlongcontentdescription" => 95
       case "com.apple.itunes.smart-playlist" => 114
       case _ => -1)
    case 36 =>
      (match d
       case "com.apple.itunes.is-podcast-playlist" => 58
       case _ => -1)
    case _ => -1
  }

  /**
   * The reverse table after start-up has walked the first `n` registry entries,
   * each entry binding its descriptor to its tag.
   */
  function DescTable(n: nat): map<string, Tag>
    requires n <= TagCount
  {
    if n == 0 then map[] else DescTable(n - 1)[Desc((n - 1) as Tag) := (n - 1) as Tag]
  }

  /** `desc2tag[d]` once start-up has walked the whole registry. */
  function Desc2Tag(d: string): Option<Tag>
  {
    var table := DescTable(TagCount);
    if d in table then Some(table[d]) else None
  }

  lemma IndexChunk0(t: Tag)
    requires 0 <= t as int < 2
    ensures CodeIndex(Code(t)) == t as int && DescIndex(Desc(t)) == t as int
  {
    if t == 0 {
      assert CodeIndex("miid") == 0 && DescIndex("dmap.itemid") == 0;
    } else {
      assert CodeIndex("minm") == 1 && DescIndex("dmap.itemname") == 1;
    }
  }

  lemma IndexChunk1(t: Tag)
    requires 2 <= t as int < 4
    ensures CodeIndex(Code(t)) == t as int && DescIndex(Desc(t)) == t as int
  {
    if t == 2 {
      assert CodeIndex("mikd") == 2 && DescIndex("dmap.itemkind") == 2;
    } else {
      assert CodeIndex("mper") == 3 && DescIndex("dmap.persistentid") == 3;
    }
  }

  lemma IndexChunk2(t: Tag)
    requires 4 <= t as int < 6
    ensures CodeIndex(Code(t)) == t as int && DescIndex(Desc(t)) == t as int
  {
    if t == 4 {
      assert CodeIndex("mcon") == 4 && DescIndex("dmap.container") == 4;
    } else {
      assert CodeIndex("mcti") == 5 && DescIndex("dmap.containeritemid") == 5;
    }
  }

  lemma IndexChunk3(t: Tag)
    requires 6 <= t as int < 8
    ensures CodeIndex(Code(t)) == t as int && DescIndex(Desc(t)) == t as int
  {
    if t == 6 {
      assert CodeIndex("mpco") == 6 && DescIndex("dmap.parentcontainerid") == 6;
    } else {
      assert CodeIndex("mstt") == 7 && DescIndex("dmap.status") == 7;
    }
  }

  lemma IndexChunk4(t: Tag)
    requires 8 <= t as int < 10
    ensures CodeIndex(Code(t)) == t as int && DescIndex(Desc(t)) == t as int
  {
    if t == 8 {
      assert CodeIndex("msts") == 8 && DescIndex("dmap.statusstring") == 8;
    } else {
      assert CodeIndex("mimc") == 9 && DescIndex("dmap.itemcount") == 9;
    }
  }

  lemma IndexChunk5(t: Tag)
    requires 10 <= t as int < 12
    ensures CodeIndex(Code(t)) == t as int && DescIndex(Desc(t)) == t as int
  {
    if t == 10 {
      assert CodeIndex("mctc") == 10 && DescIndex("dmap.containercount") == 10;
    } else {
      assert CodeIndex("mrco") == 11 && DescIndex("dmap.returnedcount") == 11;
    }
  }

  lemma IndexChunk6(t: Tag)
    requires 12 <= t as int < 14
    ensures CodeIndex(Code(t)) == t as int && DescIndex(Desc(t)) == t as int
  {
    if t == 12 {
      assert CodeIndex("mtco") == 12 && DescIndex("dmap.specifiedtotalcount") == 12;
    } else {
      assert CodeIndex("mlcl") == 13 && DescIndex("dmap.listing") == 13;
    }
  }

  lemma IndexChunk7(t: Tag)
    requires 14 <= t as int < 16
    ensures CodeIndex(Code(t)) == t as int && DescIndex(Desc(t)) == t as int
  {
    if t == 14 {
      assert CodeIndex("mlit") == 14 && DescIndex("dmap.listingitem") == 14;
    } else {
      assert CodeIndex("mbcl") == 15 && DescIndex("dmap.bag") == 15;
    }
  }

  lemma IndexChunk8(t: Tag)
    requires 16 <= t as int < 18
    ensures CodeIndex(Code(t)) == t as int && DescIndex(Desc(t)) == t as int
  {
    if t == 16 {
      assert CodeIndex("mdcl") == 16 && DescIndex("dmap.dictionary") == 16;
    } else {
      assert CodeIndex("msrv") == 17 && DescIndex("dmap.serverinforesponse") == 17;
    }
  }

  lemma IndexChunk9(t: Tag)
    requires 18 <= t as int < 20
    ensures CodeIndex(Code(t)) == t as int && DescIndex(Desc(t)) == t as int
  {
    if t == 18 {
      assert CodeIndex("msau") == 18 && DescIndex("dmap.authenticationmethod") == 18;
    } else {
      assert CodeIndex("msas") == 19 && DescIndex("dmap.authenticationschemes") == 19;
    }
  }

  lemma IndexChunk10(t: Tag)
    requires 20 <= t as int < 22
    ensures CodeIndex(Code(t)) == t as int && DescIndex(Desc(t)) == t as int
  {
    if t == 20 {
      assert CodeIndex("mslr") == 20 && DescIndex("dmap.loginrequired") == 20;
    } else {
      assert CodeIndex("mpro") == 21 && DescIndex("dmap.protocolversion") == 21;
    }
  }

  lemma IndexChunk11(t: Tag)
    requires 22 <= t as int < 24
    ensures CodeIndex(Code(t)) == t as int && DescIndex(Desc(t)) == t as int
  {
    if t == 22 {
      assert CodeIndex("msal") == 22 && DescIndex("dmap.supportsautologout") == 22;
    } else {
      assert CodeIndex("msup") == 23 && DescIndex("dmap.supportsupdate") == 23;
    }
  }

  lemma IndexChunk12(t: Tag)
    requires 24 <= t as int < 26
    ensures CodeIndex(Code(t)) == t as int && DescIndex(Desc(t)) == t as int
  {
    if t == 24 {
      assert CodeIndex("mspi") == 24 && DescIndex("dmap.supportspersistentids") == 24;
    } else {
      assert CodeIndex("msex") == 25 && DescIndex("dmap.supportsextensions") == 25;
    }
  }

  lemma IndexChunk13(t: Tag)
    requires 26 <= t as int < 28
    ensures CodeIndex(Code(t)) == t as int && DescIndex(Desc(t)) == t as int
  {
    if t == 26 {
      assert CodeIndex("msbr") == 26 && DescIndex("dmap.supportsbrowse") == 26;
    } else {
      assert CodeIndex("msqy") == 27 && DescIndex("dmap.supportsquery") == 27;
    }
  }

  lemma IndexChunk14(t: Tag)
    requires 28 <= t as int < 30
    ensures CodeIndex(Code(t)) == t as int && DescIndex(Desc(t)) == t as int
  {
    if t == 28 {
      assert CodeIndex("msix") == 28 && DescIndex("dmap.supportsindex") == 28;
    } else {
      assert CodeIndex("msrs") == 29 && DescIndex("dmap.supportsresolve") == 29;
    }
  }

  lemma IndexChunk15(t: Tag)
    requires 30 <= t as int < 32
    ensures CodeIndex(Code(t)) == t as int && DescIndex(Desc(t)) == t as int
  {
    if t == 30 {
      assert CodeIndex("mstm") == 30 && DescIndex("dmap.timeoutinterval") == 30;
    } else {
      assert CodeIndex("msdc") == 31 && DescIndex("dmap.databasescount") == 31;
    }
  }

  lemma IndexChunk16(t: Tag)
    requires 32 <= t as int < 34
    ensures CodeIndex(Code(t)) == t as int && DescIndex(Desc(t)) == t as int
  {
    if t == 32 {
      assert CodeIndex("mstc") == 32 && DescIndex("dmap.utctime") == 32;
    } else {
      assert CodeIndex("msto") == 33 && DescIndex("dmap.utcoffset") == 33;
    }
  }

  lemma IndexChunk17(t: Tag)
    requires 34 <= t as int < 36
    ensures CodeIndex(Code(t)) == t as int && DescIndex(Desc(t)) == t as int
  {
    if t == 34 {
      assert CodeIndex("mlog") == 34 && DescIndex("dmap.loginresponse") == 34;
    } else {
      assert CodeIndex("mlid") == 35 && DescIndex("dmap.sessionid") == 35;
    }
  }

  lemma IndexChunk18(t: Tag)
    requires 36 <= t as int < 38
    ensures CodeIndex(Code(t)) == t as int && DescIndex(Desc(t)) == t as int
  {
    if t == 36 {
      assert CodeIndex("mupd") == 36 && DescIndex("dmap.updateresponse") == 36;
    } else {
      assert CodeIndex("musr") == 37 && DescIndex("dmap.serverrevision") == 37;
    }
  }

  lemma IndexChunk19(t: Tag)
    requires 38 <= t as int < 40
    ensures CodeIndex(Code(t)) == t as int && DescIndex(Desc(t)) == t as int
  {
    if t == 38 {
      assert CodeIndex("muty") == 38 && DescIndex("dmap.updatetype") == 38;
    } else {
      assert CodeIndex("mudl") == 39 && DescIndex("dmap.deletedid") == 39;
    }
  }

  lemma IndexChunk20(t: Tag)
    requires 40 <= t as int < 42
    ensures CodeIndex(Code(t)) == t as int && DescIndex(Desc(t)) == t as int
  {
    if t == 40 {
      assert CodeIndex("mccr") == 40 && DescIndex("dmap.contentcodesresponse") == 40;
    } else {
      assert CodeIndex("mcnm") == 41 && DescIndex("dmap.contentcodesnumber") == 41;
    }
  }

  lemma IndexChunk21(t: Tag)
    requires 42 <= t as int < 44
    ensures CodeIndex(Code(t)) == t as int && DescIndex(Desc(t)) == t as int
  {
    if t == 42 {
      assert CodeIndex("mcna") == 42 && DescIndex("dmap.contentcodesname") == 42;
    } else {
      assert CodeIndex("mcty") == 43 && DescIndex("dmap.contentcodestype") == 43;
    }
  }

  lemma IndexChunk22(t: Tag)
    requires 44 <= t as int < 46
    ensures CodeIndex(Code(t)) == t as int && DescIndex(Desc(t)) == t as int
  {
    if t == 44 {
      assert CodeIndex("meds") == 44 && DescIndex("dmap.editcommandssupported") == 44;
    } else {
      assert CodeIndex("ated") == 45 && DescIndex("daap.supportsextradata") == 45;
    }
  }

  lemma IndexChunk23(t: Tag)
    requires 46 <= t as int < 48
    ensures CodeIndex(Code(t)) == t as int && DescIndex(Desc(t)) == t as int
  {
    if t == 46 {
      assert CodeIndex("apro") == 46 && DescIndex("daap.protocolversion") == 46;
    } else {
      assert CodeIndex("avdb") == 47 && DescIndex("daap.serverdatabases") == 47;
    }
  }

  lemma IndexChunk24(t: Tag)
    requires 48 <= t as int < 50
    ensures CodeIndex(Code(t)) == t as int && DescIndex(Desc(t)) == t as int
  {
    if t == 48 {
      assert CodeIndex("abro") == 48 && DescIndex("daap.databasebrowse") == 48;
    } else {
      assert CodeIndex("adbs") == 49 && DescIndex("daap.databasesongs") == 49;
    }
  }

  lemma IndexChunk25(t: Tag)
    requires 50 <= t as int < 52
    ensures CodeIndex(Code(t)) == t as int && DescIndex(Desc(t)) == t as int
  {
    if t == 50 {
      assert CodeIndex("aply") == 50 && DescIndex("daap.databaseplaylists") == 50;
    } else {
      assert CodeIndex("apso") == 51 && DescIndex("daap.playlistsongs") == 51;
    }
  }

  lemma IndexChunk26(t: Tag)
    requires 52 <= t as int < 54
    ensures CodeIndex(Code(t)) == t as int && DescIndex(Desc(t)) == t as int
  {
    if t == 52 {
      assert CodeIndex("arsv") == 52 && DescIndex("daap.resolve") == 52;
    } else {
      assert CodeIndex("arif") == 53 && DescIndex("daap.resolveinfo") == 53;
    }
  }

  lemma IndexChunk27(t: Tag)
    requires 54 <= t as int < 56
    ensures CodeIndex(Code(t)) == t as int && DescIndex(Desc(t)) == t as int
  {
    if t == 54 {
      assert CodeIndex("abal") == 54 && DescIndex("daap.browsealbumlisting") == 54;
    } else {
      assert CodeIndex("abar") == 55 && DescIndex("daap.browseartistlisting") == 55;
    }
  }

  lemma IndexChunk28(t: Tag)
    requires 56 <= t as int < 58
    ensures CodeIndex(Code(t)) == t as int && DescIndex(Desc(t)) == t as int
  {
    if t == 56 {
      assert CodeIndex("abcp") == 56 && DescIndex("daap.browsecomposerlisting") == 56;
    } else {
      assert CodeIndex("abgn") == 57 && DescIndex("daap.browsegenrelisting") == 57;
    }
  }

  lemma IndexChunk29(t: Tag)
    requires 58 <= t as int < 60
    ensures CodeIndex(Code(t)) == t as int && DescIndex(Desc(t)) == t as int
  {
    if t == 58 {
      assert CodeIndex("aePP") == 58 && DescIndex("com.apple.itunes.is-podcast-playlist") == 58;
    } else {
      assert CodeIndex("asal") == 59 && DescIndex("daap.songalbum") == 59;
    }
  }

  lemma IndexChunk30(t: Tag)
    requires 60 <= t as int < 62
    ensures CodeIndex(Code(t)) == t as int && DescIndex(Desc(t)) == t as int
  {
    if t == 60 {
      assert CodeIndex("asar") == 60 && DescIndex("daap.songartist") == 60;
    } else {
      assert CodeIndex("asbr") == 61 && DescIndex("daap.songbitrate") == 61;
    }
  }

  lemma IndexChunk31(t: Tag)
    requires 62 <= t as int < 64
    ensures CodeIndex(Code(t)) == t as int && DescIndex(Desc(t)) == t as int
  {
    if t == 62 {
      assert CodeIndex("ascm") == 62 && DescIndex("daap.songcomment") == 62;
    } else {
      assert CodeIndex("asco") == 63 && DescIndex("daap.songcompilation") == 63;
    }
  }

  lemma IndexChunk32(t: Tag)
    requires 64 <= t as int < 66
    ensures CodeIndex(Code(t)) == t as int && DescIndex(Desc(t)) == t as int
  {
    if t == 64 {
      assert CodeIndex("ascp") == 64 && DescIndex("daap.songcomposer") == 64;
    } else {
      assert CodeIndex("asda") == 65 && DescIndex("daap.songdateadded") == 65;
    }
  }

  lemma IndexChunk33(t: Tag)
    requires 66 <= t as int < 68
    ensures CodeIndex(Code(t)) == t as int && DescIndex(Desc(t)) == t as int
  {
    if t == 66 {
      assert CodeIndex("asdm") == 66 && DescIndex("daap.songdatemodified") == 66;
    } else {
      assert CodeIndex("asdc") == 67 && DescIndex("daap.songdisccount") == 67;
    }
  }

  lemma IndexChunk34(t: Tag)
    requires 68 <= t as int < 70
    ensures CodeIndex(Code(t)) == t as int && DescIndex(Desc(t)) == t as int
  {
    if t == 68 {
      assert CodeIndex("asdn") == 68 && DescIndex("daap.songdiscnumber") == 68;
    } else {
      assert CodeIndex("aseq") == 69 && DescIndex("daap.songeqpreset") == 69;
    }
  }

  lemma IndexChunk35(t: Tag)
    requires 70 <= t as int < 72
    ensures CodeIndex(Code(t)) == t as int && DescIndex(Desc(t)) == t as int
  {
    if t == 70 {
      assert CodeIndex("asgn") == 70 && DescIndex("daap.songgenre") == 70;
    } else {
      assert CodeIndex("asdt") == 71 && DescIndex("daap.songdescription") == 71;
    }
  }

  lemma IndexChunk36(t: Tag)
    requires 72 <= t as int < 74
    ensures CodeIndex(Code(t)) == t as int && DescIndex(Desc(t)) == t as int
  {
    if t == 72 {
      assert CodeIndex("asrv") == 72 && DescIndex("daap.songrelativevolume") == 72;
    } else {
      assert CodeIndex("assr") == 73 && DescIndex("daap.songsamplerate") == 73;
    }
  }

  lemma IndexChunk37(t: Tag)
    requires 74 <= t as int < 76
    ensures CodeIndex(Code(t)) == t as int && DescIndex(Desc(t)) == t as int
  {
    if t == 74 {
      assert CodeIndex("assz") == 74 && DescIndex("daap.songsize") == 74;
    } else {
      assert CodeIndex("asst") == 75 && DescIndex("daap.songstarttime") == 75;
    }
  }

  lemma IndexChunk38(t: Tag)
    requires 76 <= t as int < 78
    ensures CodeIndex(Code(t)) == t as int && DescIndex(Desc(t)) == t as int
  {
    if t == 76 {
      assert CodeIndex("assp") == 76 && DescIndex("daap.songstoptime") == 76;
    } else {
      assert CodeIndex("astm") == 77 && DescIndex("daap.songtime") == 77;
    }
  }

  lemma IndexChunk39(t: Tag)
    requires 78 <= t as int < 80
    ensures CodeIndex(Code(t)) == t as int && DescIndex(Desc(t)) == t as int
  {
    if t == 78 {
      assert CodeIndex("astc") == 78 && DescIndex("daap.songtrackcount") == 78;
    } else {
      assert CodeIndex("astn") == 79 && DescIndex("daap.songtracknumber") == 79;
    }
  }

  lemma IndexChunk40(t: Tag)
    requires 80 <= t as int < 82
    ensures CodeIndex(Code(t)) == t as int && DescIndex(Desc(t)) == t as int
  {
    if t == 80 {
      assert CodeIndex("asur") == 80 && DescIndex("daap.songuserrating") == 80;
    } else {
      assert CodeIndex("asyr") == 81 && DescIndex("daap.songyear") == 81;
    }
  }

  lemma IndexChunk41(t: Tag)
    requires 82 <= t as int < 84
    ensures CodeIndex(Code(t)) == t as int && DescIndex(Desc(t)) == t as int
  {
    if t == 82 {
      assert CodeIndex("asfm") == 82 && DescIndex("daap.songformat") == 82;
    } else {
      assert CodeIndex("asdb") == 83 && DescIndex("daap.songdisabled") == 83;
    }
  }

  lemma IndexChunk42(t: Tag)
    requires 84 <= t as int < 86
    ensures CodeIndex(Code(t)) == t as int && DescIndex(Desc(t)) == t as int
  {
    if t == 84 {
      assert CodeIndex("asdk") == 84 && DescIndex("daap.songdatakind") == 84;
    } else {
      assert CodeIndex("asul") == 85 && DescIndex("daap.songdataurl") == 85;
    }
  }

  lemma IndexChunk43(t: Tag)
    requires 86 <= t as int < 88
    ensures CodeIndex(Code(t)) == t as int && DescIndex(Desc(t)) == t as int
  {
    if t == 86 {
      assert CodeIndex("asbt") == 86 && DescIndex("daap.songbeatsperminute") == 86;
    } else {
      assert CodeIndex("abpl") == 87 && DescIndex("daap.baseplaylist") == 87;
    }
  }

  lemma IndexChunk44(t: Tag)
    requires 88 <= t as int < 90
    ensures CodeIndex(Code(t)) == t as int && DescIndex(Desc(t)) == t as int
  {
    if t == 88 {
      assert CodeIndex("agrp") == 88 && DescIndex("daap.songgrouping") == 88;
    } else {
      assert CodeIndex("ascd") == 89 && DescIndex("daap.songcodectype") == 89;
    }
  }

  lemma IndexChunk45(t: Tag)
    requires 90 <= t as int < 92
    ensures CodeIndex(Code(t)) == t as int && DescIndex(Desc(t)) == t as int
  {
    if t == 90 {
      assert CodeIndex("ascs") == 90 && DescIndex("daap.songcodecsubtype") == 90;
    } else {
      assert CodeIndex("apsm") == 91 && DescIndex("daap.playlistshufflemode") == 91;
    }
  }

  lemma IndexChunk46(t: Tag)
    requires 92 <= t as int < 94
    ensures CodeIndex(Code(t)) == t as int && DescIndex(Desc(t)) == t as int
  {
    if t == 92 {
      assert CodeIndex("aprm") == 92 && DescIndex("daap.playlistrepeatmode") == 92;
    } else {
      assert CodeIndex("asct") == 93 && DescIndex("daap.songcategory") == 93;
    }
  }

  lemma IndexChunk47(t: Tag)
    requires 94 <= t as int < 96
    ensures CodeIndex(Code(t)) == t as int && DescIndex(Desc(t)) == t as int
  {
    if t == 94 {
      assert CodeIndex("ascn") == 94 && DescIndex("daap.songcontentdescription") == 94;
    } else {
      assert CodeIndex("aslc") == 95 && DescIndex("daap.songlongcontentdescription") == 95;
    }
  }

  lemma IndexChunk48(t: Tag)
    requires 96 <= t as int < 98
    ensures CodeIndex(Code(t)) == t as int && DescIndex(Desc(t)) == t as int
  {
    if t == 96 {
      assert CodeIndex("asky") == 96 && DescIndex("daap.songkeywords") == 96;
    } else {
      assert CodeIndex("ascr") == 97 && DescIndex("daap.songcontentrating") == 97;
    }
  }

  lemma IndexChunk49(t: Tag)
    requires 98 <= t as int < 100
    ensures CodeIndex(Code(t)) == t as int && DescIndex(Desc(t)) == t as int
  {
    if t == 98 {
      assert CodeIndex("asgp") == 98 && DescIndex("daap.songgapless") == 98;
    } else {
      assert CodeIndex("asdr") == 99 && DescIndex("daap.songdatereleased") == 99;
    }
  }

  lemma IndexChunk50(t: Tag)
    requires 100 <= t as int < 102
    ensures CodeIndex(Code(t)) == t as int && DescIndex(Desc(t)) == t as int
  {
    if t == 100 {
      assert CodeIndex("asdp") == 100 && DescIndex("daap.songdatepurchased") == 100;
    } else {
      assert CodeIndex("ashp") == 101 && DescIndex("daap.songhasbeenplayed") == 101;
    }
  }

  lemma IndexChunk51(t: Tag)
    requires 102 <= t as int < 104
    ensures CodeIndex(Code(t)) == t as int && DescIndex(Desc(t)) == t as int
  {
    if t == 102 {
      assert CodeIndex("assn") == 102 && DescIndex("daap.sortname") == 102;
    } else {
      assert CodeIndex("assa") == 103 && DescIndex("daap.sortartist") == 103;
    }
  }

  lemma IndexChunk52(t: Tag)
    requires 104 <= t as int < 106
    ensures CodeIndex(Code(t)) == t as int && DescIndex(Desc(t)) == t as int
  {
    if t == 104 {
      assert CodeIndex("assl") == 104 && DescIndex("daap.sortalbumartist") == 104;
    } else {
      assert CodeIndex("assu") == 105 && DescIndex("daap.sortalbum") == 105;
    }
  }

  lemma IndexChunk53(t: Tag)
    requires 106 <= t as int < 108
    ensures CodeIndex(Code(t)) == t as int && DescIndex(Desc(t)) == t as int
  {
    if t == 106 {
      assert CodeIndex("assc") == 106 && DescIndex("daap.sortcomposer") == 106;
    } else {
      assert CodeIndex("asss") == 107 && DescIndex("daap.sortseriesname") == 107;
    }
  }

  lemma IndexChunk54(t: Tag)
    requires 108 <= t as int < 110
    ensures CodeIndex(Code(t)) == t as int && DescIndex(Desc(t)) == t as int
  {
    if t == 108 {
      assert CodeIndex("asbk") == 108 && DescIndex("daap.bookmarkable") == 108;
    } else {
      assert CodeIndex("asbo") == 109 && DescIndex("daap.songbookmark") == 109;
    }
  }

  lemma IndexChunk55(t: Tag)
    requires 110 <= t as int < 112
    ensures CodeIndex(Code(t)) == t as int && DescIndex(Desc(t)) == t as int
  {
    if t == 110 {
      assert CodeIndex("aspu") == 110 && DescIndex("daap.songpodcasturl") == 110;
    } else {
      assert CodeIndex("asai") == 111 && DescIndex("daap.songalbumid") == 111;
    }
  }

  lemma IndexChunk56(t: Tag)
    requires 112 <= t as int < 114
    ensures CodeIndex(Code(t)) == t as int && DescIndex(Desc(t)) == t as int
  {
    if t == 112 {
      assert CodeIndex("asls") == 112 && DescIndex("daap.songlongsize") == 112;
    } else {
      assert CodeIndex("asaa") == 113 && DescIndex("daap.songalbumartist") == 113;
    }
  }

  lemma IndexChunk57(t: Tag)
    requires 114 <= t as int < 115
    ensures CodeIndex(Code(t)) == t as int && DescIndex(Desc(t)) == t as int
  {
    assert CodeIndex("aeSP") == 114 && DescIndex("com.apple.itunes.smart-playlist") == 114;
  }

  /** Both indexes find every registered tag from its code and from its descriptor. */
  lemma IndexesFind(t: Tag)
    ensures CodeIndex(Code(t)) == t as int && DescIndex(Desc(t)) == t as int
  {
    if t < 2 {
      IndexChunk0(t);
    } else if t < 4 {
      IndexChunk1(t);
    } else if t < 6 {
      IndexChunk2(t);
    } else if t < 8 {
      IndexChunk3(t);
    } else if t < 10 {
      IndexChunk4(t);
    } else if t < 12 {
      IndexChunk5(t);
    } else if t < 14 {
      IndexChunk6(t);
    } else if t < 16 {
      IndexChunk7(t);
    } else if t < 18 {
      IndexChunk8(t);
    } else if t < 20 {
      IndexChunk9(t);
    } else if t < 22 {
      IndexChunk10(t);
    } else if t < 24 {
      IndexChunk11(t);
    } else if t < 26 {
      IndexChunk12(t);
    } else if t < 28 {
      IndexChunk13(t);
    } else if t < 30 {
      IndexChunk14(t);
    } else if t < 32 {
      IndexChunk15(t);
    } else if t < 34 {
      IndexChunk16(t);
    } else if t < 36 {
      IndexChunk17(t);
    } else if t < 38 {
      IndexChunk18(t);
    } else if t < 40 {
      IndexChunk19(t);
    } else if t < 42 {
      IndexChunk20(t);
    } else if t < 44 {
      IndexChunk21(t);
    } else if t < 46 {
      IndexChunk22(t);
    } else if t < 48 {
      IndexChunk23(t);
    } else if t < 50 {
      IndexChunk24(t);
    } else if t < 52 {
      IndexChunk25(t);
    } else if t < 54 {
      IndexChunk26(t);
    } else if t < 56 {
      IndexChunk27(t);
    } else if t < 58 {
      IndexChunk28(t);
    } else if t < 60 {
      IndexChunk29(t);
    } else if t < 62 {
      IndexChunk30(t);
    } else if t < 64 {
      IndexChunk31(t);
    } else if t < 66 {
      IndexChunk32(t);
    } else if t < 68 {
      IndexChunk33(t);
    } else if t < 70 {
      IndexChunk34(t);
    } else if t < 72 {
      IndexChunk35(t);
    } else if t < 74 {
      IndexChunk36(t);
    } else if t < 76 {
      IndexChunk37(t);
    } else if t < 78 {
      IndexChunk38(t);
    } else if t < 80 {
      IndexChunk39(t);
    } else if t < 82 {
      IndexChunk40(t);
    } else if t < 84 {
      IndexChunk41(t);
    } else if t < 86 {
      IndexChunk42(t);
    } else if t < 88 {
      IndexChunk43(t);
    } else if t < 90 {
      IndexChunk44(t);
    } else if t < 92 {
      IndexChunk45(t);
    } else if t < 94 {
      IndexChunk46(t);
    } else if t < 96 {
      IndexChunk47(t);
    } else if t < 98 {
      IndexChunk48(t);
    } else if t < 100 {
      IndexChunk49(t);
    } else if t < 102 {
      IndexChunk50(t);
    } else if t < 104 {
      IndexChunk51(t);
    } else if t < 106 {
      IndexChunk52(t);
    } else if t < 108 {
      IndexChunk53(t);
    } else if t < 110 {
      IndexChunk54(t);
    } else if t < 112 {
      IndexChunk55(t);
    } else if t < 114 {
      IndexChunk56(t);
    } else {
      IndexChunk57(t);
    }
  }

  /** `tag2info` finds every registered tag from its code. */
  lemma TagOfCode(t: Tag)
    ensures TagOf(Code(t)) == Some(t)
  {
    IndexesFind(t);
  }

  /** No two registry entries share a code. */
  lemma CodeInjective(a: Tag, b: Tag)
    ensures Code(a) == Code(b) ==> a == b
  {
    IndexesFind(a);
    IndexesFind(b);
  }

  /** No two registry entries share a descriptor. */
  lemma DescInjective(a: Tag, b: Tag)
    ensures Desc(a) == Desc(b) ==> a == b
  {
    IndexesFind(a);
    IndexesFind(b);
  }

  lemma {:induction false} DescTableBinds(n: nat, d: string)
    requires n <= TagCount
    ensures d in DescTable(n) <==> exists k: Tag :: k as int < n && Desc(k) == d
    ensures d in DescTable(n) ==> DescTable(n)[d] as int < n && Desc(DescTable(n)[d]) == d
  {
    if n > 0 {
      DescTableBinds(n - 1, d);
      var last := (n - 1) as Tag;
      if d != Desc(last) && d in DescTable(n) {
        assert d in DescTable(n - 1);
      }
    }
  }

  /** `desc2tag[d]` is defined exactly for the registered descriptors, and gives back their tag. */
  lemma Desc2TagDesc(d: string, t: Tag)
    ensures Desc2Tag(d) == Some(t) <==> d == Desc(t)
  {
    DescTableBinds(TagCount, d);
    if d == Desc(t) {
      assert t as int < TagCount;
      var u := DescTable(TagCount)[d];
      DescInjective(t, u);
    }
  }
}
