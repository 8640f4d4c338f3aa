/** cmd_play.cpp: the current CMD PLAY settings of the six FM and six SSG
    channels (vsk_fm_sound_settings, vsk_ssg_sound_settings), shared with CMD
    SING, and their get/set through a byte blob. */
module Settings {
  import opened Base
  import opened Notes

  const MAX_CHANNEL: nat := 6

  /** A byte vector handed to or from get/set_setting: its size, and the
      setting its bytes image when the size is that of a setting. */
  datatype Blob = Blob(size: nat, image: SoundSetting)

  class SettingStore {
    var fm: seq<SoundSetting>
    var ssg: seq<SoundSetting>
    /** sizeof(VskSoundSetting). */
    const settingSize: nat

    ghost predicate Valid()
      reads this
    {
      |fm| == MAX_CHANNEL && |ssg| == MAX_CHANNEL
    }

    /** The two arrays, every channel at the default setting. */
    constructor (initial: SoundSetting, size: nat)
      ensures Valid() && settingSize == size
      ensures forall c :: 0 <= c < MAX_CHANNEL ==> fm[c] == initial && ssg[c] == initial
    {
      fm := seq(MAX_CHANNEL, _ => initial);
      ssg := seq(MAX_CHANNEL, _ => initial);
      settingSize := size;
    }

    /** vsk_cmd_play_get_setting_size. */
    function SettingSize(): (n: nat)
      reads this
    {
      settingSize
    }

    /** The setting behind a channel number: 0..5 are FM, 6..11 are SSG. */
    function Channel(ch: int): (r: Option<SoundSetting>)
      reads this
      requires Valid()
      ensures r.Some? <==> 0 <= ch < 2 * MAX_CHANNEL
      ensures 0 <= ch < MAX_CHANNEL ==> r == Some(fm[ch])
      ensures MAX_CHANNEL <= ch < 2 * MAX_CHANNEL ==> r == Some(ssg[ch - MAX_CHANNEL])
    {
      if 0 <= ch < MAX_CHANNEL then Some(fm[ch])
      else if MAX_CHANNEL <= ch < 2 * MAX_CHANNEL then Some(ssg[ch - MAX_CHANNEL])
      else None
    }

    /** vsk_cmd_play_get_setting: the blob is resized to a setting's size in
        every case, and receives the channel's setting only for a channel
        number 0..11. */
    method GetSetting(ch: int, data: Blob) returns (ok: bool, r: Blob)
      requires Valid()
      ensures ok <==> 0 <= ch < 2 * MAX_CHANNEL
      ensures r.size == settingSize
      ensures ok ==> r.image == Channel(ch).value
      ensures !ok ==> r.image == data.image
    {
      r := data.(size := settingSize);
      match Channel(ch)
      case Some(s) =>
        r := r.(image := s);
        ok := true;
      case None =>
        ok := false;
    }

    /** vsk_cmd_play_set_setting: a blob of the wrong size is refused; channel
        0..5 overwrites FM, 6..11 overwrites SSG, any other channel fails. */
    method SetSetting(ch: int, data: Blob) returns (ok: bool)
      modifies this
      requires Valid()
      ensures Valid()
      ensures ok <==> data.size == settingSize && 0 <= ch < 2 * MAX_CHANNEL
      ensures fm == (if ok && ch < MAX_CHANNEL then old(fm)[ch := data.image] else old(fm))
      ensures ssg == (if ok && ch >= MAX_CHANNEL then old(ssg)[ch - MAX_CHANNEL := data.image] else old(ssg))
    {
      if data.size != settingSize {
        return false;
      }
      if 0 <= ch < MAX_CHANNEL {
        fm := fm[ch := data.image];
        return true;
      }
      if MAX_CHANNEL <= ch < 2 * MAX_CHANNEL {
        ssg := ssg[ch - MAX_CHANNEL := data.image];
        return true;
      }
      return false;
    }

    /** Assignment to vsk_fm_sound_settings[i]. */
    method SetFm(i: nat, s: SoundSetting)
      modifies this
      requires Valid() && i < MAX_CHANNEL
      ensures Valid() && fm == old(fm)[i := s] && ssg == old(ssg)
    {
      fm := fm[i := s];
    }

    /** Assignment to vsk_ssg_sound_settings[i]. */
    method SetSsg(i: nat, s: SoundSetting)
      modifies this
      requires Valid() && i < MAX_CHANNEL
      ensures Valid() && ssg == old(ssg)[i := s] && fm == old(fm)
    {
      ssg := ssg[i := s];
    }
  }

  /** Setting a channel and reading it back gives the blob's setting; the
      other channels read as before. */
  method SetThenGet(store: SettingStore, ch: int, other: int, data: Blob) returns (ok: bool, r: Blob)
    modifies store
    requires store.Valid() && data.size == store.settingSize && 0 <= ch < 2 * MAX_CHANNEL
    requires 0 <= other < 2 * MAX_CHANNEL && other != ch
    ensures ok && r.image == data.image && r.size == data.size
    ensures store.Valid() && store.Channel(other) == old(store.Channel(other))
  {
    var stored := store.SetSetting(ch, data);
    ok, r := store.GetSetting(ch, data);
  }
}
