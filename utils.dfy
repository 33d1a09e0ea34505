/** On-disk path naming for downloaded media and profile photos
    (src/tg/utils.rs), with decimal formatting and Rust's `i64` parsing
    written out.

    Creating the directory and counting its entries are file-system effects:
    `ProfilePhotoPathFor` receives their outcome as `listing` (`None` when
    the directory could not be created or read, otherwise the entry count). */
module Utils {
  import opened Types

  const BASE_PATH: string := "/data/storage/el2/base/"
  const MEDIAS_DIR: string := BASE_PATH + "downloads/"

  // ---------------------------------------------------------------------
  // Decimal formatting

  predicate IsDigit(c: char) {
    '0' <= c <= '9'
  }

  predicate AllDigits(s: string) {
    forall i :: 0 <= i < |s| ==> IsDigit(s[i])
  }

  function Digit(d: nat): (c: char)
    requires d < 10
    ensures IsDigit(c) && c as int - '0' as int == d
  {
    ('0' as int + d) as char
  }

  /** `to_string` of a non-negative integer: no sign, no leading zeros. */
  function DecNat(n: nat): (s: string)
    ensures 1 <= |s| && AllDigits(s)
    ensures n < 10 <==> |s| == 1
    decreases n
  {
    if n < 10 then [Digit(n)] else DecNat(n / 10) + [Digit(n % 10)]
  }

  /** `to_string` / `format!("{}")` of any integer. */
  function Dec(n: int): (s: string)
    ensures 1 <= |s|
    ensures n >= 0 ==> AllDigits(s)
    ensures n < 0 ==> s[0] == '-' && AllDigits(s[1..])
  {
    if n < 0 then "-" + DecNat(-n) else DecNat(n)
  }

  lemma {:induction false} DecNatInjective(a: nat, b: nat)
    requires DecNat(a) == DecNat(b)
    ensures a == b
    decreases a
  {
    if a >= 10 && b >= 10 {
      var sa, sb := DecNat(a), DecNat(b);
      assert sa[..|sa| - 1] == DecNat(a / 10);
      assert sb[..|sb| - 1] == DecNat(b / 10);
      DecNatInjective(a / 10, b / 10);
      assert Digit(a % 10) == sa[|sa| - 1] == sb[|sb| - 1] == Digit(b % 10);
    }
  }

  /** Different integers print differently. */
  lemma DecInjective(a: int, b: int)
    requires Dec(a) == Dec(b)
    ensures a == b
  {
    assert Dec(a)[0] == '-' <==> a < 0;
    assert Dec(b)[0] == '-' <==> b < 0;
    if a < 0 {
      assert DecNat(-a) == Dec(a)[1..] == Dec(b)[1..] == DecNat(-b);
      DecNatInjective(-a, -b);
    } else {
      DecNatInjective(a, b);
    }
  }

  // ---------------------------------------------------------------------
  // Parsing, as `str::parse::<i64>`

  const I64_MIN: int := -0x8000_0000_0000_0000
  const I64_MAX: int := 0x7fff_ffff_ffff_ffff

  function DigitsValue(s: string): nat
    requires AllDigits(s)
  {
    if s == [] then 0
    else DigitsValue(s[..|s| - 1]) * 10 + (s[|s| - 1] as int - '0' as int)
  }

  /** An optional `+` or `-`, then at least one ASCII digit, nothing else, and
      the value inside the `i64` range; anything else is an error (`None`).
      Leading zeros are accepted. */
  function ParseI64(s: string): (r: Option<int>)
    ensures r.Some? ==> I64_MIN <= r.value <= I64_MAX
    ensures s == [] ==> r.None?
  {
    if s == [] then None
    else
      var negative := s[0] == '-';
      var digits := if s[0] == '+' || s[0] == '-' then s[1..] else s;
      if digits == [] || !AllDigits(digits) then None
      else
        var magnitude: int := DigitsValue(digits);
        var v := if negative then -magnitude else magnitude;
        if I64_MIN <= v <= I64_MAX then Some(v) else None
  }

  lemma {:induction false} DigitsValueOfDecNat(n: nat)
    ensures DigitsValue(DecNat(n)) == n
    decreases n
  {
    var s := DecNat(n);
    if n >= 10 {
      assert s[..|s| - 1] == DecNat(n / 10);
      DigitsValueOfDecNat(n / 10);
    }
  }

  /** Parsing what `Dec` printed gives the number back, for every `i64`. */
  lemma ParseDecRoundTrip(n: int)
    requires I64_MIN <= n <= I64_MAX
    ensures ParseI64(Dec(n)) == Some(n)
  {
    var s := Dec(n);
    if n < 0 {
      assert s[1..] == DecNat(-n);
      DigitsValueOfDecNat(-n);
    } else {
      DigitsValueOfDecNat(n);
    }
  }

  /** Leading zeros are accepted, so two distinct strings can parse to one id. */
  lemma ParseCollapsesLeadingZeros()
    ensures ParseI64("7") == Some(7) && ParseI64("07") == Some(7) && ParseI64("+7") == Some(7)
    ensures ParseI64("") == None && ParseI64("-") == None && ParseI64("7a") == None
  {
    assert DigitsValue("07") == DigitsValue("0") * 10 + 7 by {
      assert "07"[..1] == "0";
    }
    assert "+7"[1..] == "7";
    assert "7a"[1] == 'a';
  }

  // ---------------------------------------------------------------------
  // Media paths

  /** `get_download_dir`: the media directory, a separator, the chat id in
      decimal and a closing separator. */
  function DownloadDir(chatId: int): (r: string)
    ensures |r| == |MEDIAS_DIR| + |Dec(chatId)| + 2
    ensures r[..|MEDIAS_DIR| + 1] == MEDIAS_DIR + "/"
    ensures r[|MEDIAS_DIR| + 1..|r| - 1] == Dec(chatId)
    ensures r[|r| - 1] == '/'
  {
    MEDIAS_DIR + "/" + Dec(chatId) + "/"
  }

  /** `get_media_path`: a `.jpg` file in the chat's download directory whose
      stem is the message id in decimal. */
  function MediaPath(chatId: int, messageId: int): (r: string)
    ensures |DownloadDir(chatId)| + 4 < |r|
    ensures r[..|DownloadDir(chatId)|] == DownloadDir(chatId)
    ensures r[|DownloadDir(chatId)|..|r| - 4] == Dec(messageId)
    ensures r[|r| - 4..] == ".jpg"
  {
    MEDIAS_DIR + "/" + Dec(chatId) + "/" + Dec(messageId) + ".jpg"
  }

  /** Different chats get different download directories. */
  lemma DownloadDirInjective(a: int, b: int)
    requires DownloadDir(a) == DownloadDir(b)
    ensures a == b
  {
    assert |Dec(a)| == |Dec(b)|;
    DecInjective(a, b);
  }

  /** A media file lives directly in its chat's download directory, named by
      the message id; different messages of a chat get different paths. */
  lemma MediaPathInDownloadDir(chatId: int, m1: int, m2: int)
    ensures MediaPath(chatId, m1) == DownloadDir(chatId) + Dec(m1) + ".jpg"
    ensures MediaPath(chatId, m1) == MediaPath(chatId, m2) ==> m1 == m2
  {
    if MediaPath(chatId, m1) == MediaPath(chatId, m2) {
      FileNameInjective(DownloadDir(chatId), Dec(m1), Dec(m2), ".jpg");
      DecInjective(m1, m2);
    }
  }

  lemma FileNameInjective(dir: string, a: string, b: string, ext: string)
    requires dir + a + ext == dir + b + ext
    ensures a == b
  {
    var s, t := dir + a + ext, dir + b + ext;
    assert |a| == |b|;
    assert a == s[|dir|..|dir| + |a|];
    assert b == t[|dir|..|dir| + |b|];
  }

  // ---------------------------------------------------------------------
  // Profile photo numbering

  datatype ProfilePhotoPath = ProfilePhotoPath(dir: string, current: Option<string>, next: string, count: int)

  function ProfilePhotoDir(chatId: int): string {
    MEDIAS_DIR + "/" + Dec(chatId) + "/" + "profile_photos/"
  }

  function PhotoFile(chatId: int, k: nat): string {
    ProfilePhotoDir(chatId) + Dec(k) + ".jpg"
  }

  /** `usize as i32`: keeps the low 32 bits as a two's-complement value. */
  function AsI32(n: nat): (r: int)
    ensures n < 0x8000_0000 ==> r == n
    ensures -0x8000_0000 <= r < 0x8000_0000
  {
    var low := n % 0x1_0000_0000;
    if low < 0x8000_0000 then low else low - 0x1_0000_0000
  }

  /** `get_profile_photo_path_and_count` with the directory's entry count as
      input. Photos are numbered from 1: `current` names the n-th file (none
      when the directory is empty), `next` the (n+1)-th, which differs from it. */
  function ProfilePhotoPathFor(chatId: int, listing: Option<nat>): (r: Result<ProfilePhotoPath>)
    ensures r.Ok? <==> listing.Some?
    ensures r.Ok? ==>
      var p := r.value;
      var n := listing.value;
      && p.dir == ProfilePhotoDir(chatId)
      && p.dir <= p.next
      && p.next == PhotoFile(chatId, n + 1)
      && (p.current.None? <==> n == 0)
      && (p.current.Some? ==> p.dir <= p.current.value && p.current.value == PhotoFile(chatId, n))
      && (p.current.Some? ==> p.current.value != p.next)
      && (n < 0x8000_0000 ==> p.count == n)
  {
    match listing
    case None => Err(FsError)
    case Some(n) =>
      var dir := ProfilePhotoDir(chatId);
      var current := if n == 0 then None else Some(PhotoFile(chatId, n));
      var next := PhotoFile(chatId, n + 1);
      NextIsNewFile(chatId, n + 1, n);
      Ok(ProfilePhotoPath(dir, current, next, AsI32(n)))
  }

  /** The next file's name differs from every earlier-numbered one. */
  lemma NextIsNewFile(chatId: int, next: nat, k: nat)
    requires k < next
    ensures PhotoFile(chatId, next) != PhotoFile(chatId, k)
  {
    if PhotoFile(chatId, next) == PhotoFile(chatId, k) {
      FileNameInjective(ProfilePhotoDir(chatId), Dec(next), Dec(k), ".jpg");
      DecInjective(next, k);
    }
  }

  /** Once the next file has been written (n+1 entries), it is the current
      one, and the new next name is one further; no existing photo 1..n+1 is
      ever named as next. */
  lemma NextBecomesCurrent(chatId: int, n: nat)
    ensures var before := ProfilePhotoPathFor(chatId, Some(n)).value;
            var after := ProfilePhotoPathFor(chatId, Some(n + 1)).value;
            after.current == Some(before.next) &&
            forall k :: 1 <= k <= n + 1 ==> after.next != PhotoFile(chatId, k)
  {
    forall k | 1 <= k <= n + 1
      ensures PhotoFile(chatId, n + 2) != PhotoFile(chatId, k)
    {
      NextIsNewFile(chatId, n + 2, k);
    }
  }
}
