/**
 * The hero section's social links: each link reads one site setting and
 * falls back to its default URL; the e-mail link gets a `mailto:` prefix; a
 * link opens in a new tab when its URL is neither a `mailto:` link nor `#`.
 */
module Hero {
  import opened Wrappers
  import opened Schema
  import opened Queries
  import Typing
  import Routes

  datatype SocialLink = SocialLink(caption: string, settingKey: string, defaultUrl: string, testId: string)

  const EmailKey: string := "email"
  const MailtoPrefix: string := "mailto:"
  const NoUrl: string := "#"

  const InstagramLink: SocialLink := SocialLink("אינסטגרם", "instagram_url", NoUrl, "link-instagram")
  const LinkedinLink: SocialLink := SocialLink("לינקדאין", "linkedin_url", NoUrl, "link-linkedin")
  const GithubLink: SocialLink := SocialLink("גיטהאב", "github_url", NoUrl, "link-github")
  const EmailLink: SocialLink := SocialLink("מייל", EmailKey, "mailto:daniel@example.com", "link-email")

  const SocialLinks: seq<SocialLink> := [InstagramLink, LinkedinLink, GithubLink, EmailLink]

  /** The words of the hero's typing animation. */
  const TypingWords: seq<string> := ["חוקר סייבר", "פנטסטר", "לומד כל יום", "מחפש הזדמנות"]

  /** The animation's words are non-empty, so its invariant holds from the start. */
  lemma TypingWordsStart()
    ensures |TypingWords| > 0 && Typing.Inv(TypingWords, Typing.Initial)
  {
  }

  /** `settingsData?.settings || {}`: before the query answers, no settings. */
  function Settings(data: Option<map<string, string>>): (m: map<string, string>)
    ensures data.None? ==> m == map[]
    ensures data.Some? ==> m == data.value
  {
    if data.Some? then data.value else map[]
  }

  /** `getUrl`: a missing or empty value gives the default. */
  function GetUrl(settings: map<string, string>, link: SocialLink): (url: string)
    ensures link.settingKey !in settings || settings[link.settingKey] == "" ==> url == link.defaultUrl
    ensures link.settingKey in settings && settings[link.settingKey] != "" ==>
      url == (if link.settingKey == EmailKey then MailtoPrefix + settings[link.settingKey]
              else settings[link.settingKey])
  {
    if link.settingKey !in settings || settings[link.settingKey] == "" then link.defaultUrl
    else if link.settingKey == EmailKey then MailtoPrefix + settings[link.settingKey]
    else settings[link.settingKey]
  }

  /** Whether the link opens in a new tab: `mailto:` links and the `#` placeholder never do, anything else does. */
  predicate IsExternal(url: string)
    ensures MailtoPrefix <= url ==> !IsExternal(url)
    ensures url == NoUrl ==> !IsExternal(url)
    ensures !(MailtoPrefix <= url) && url != NoUrl ==> IsExternal(url)
  {
    !(MailtoPrefix <= url) && url != NoUrl
  }

  /** The e-mail link never opens a new tab, whatever the settings hold. */
  lemma EmailLinkNeverExternal(settings: map<string, string>)
    ensures !IsExternal(GetUrl(settings, EmailLink))
  {
    var url := GetUrl(settings, EmailLink);
    assert url[..|MailtoPrefix|] == MailtoPrefix;
  }

  /** Before the settings load every link shows its default, and none is external. */
  lemma DefaultsBeforeLoad()
    ensures forall link :: link in SocialLinks ==>
      GetUrl(Settings(None), link) == link.defaultUrl && !IsExternal(GetUrl(Settings(None), link))
  {
    assert !IsExternal(EmailLink.defaultUrl) by {
      assert EmailLink.defaultUrl[..|MailtoPrefix|] == MailtoPrefix;
    }
  }

  /** A link other than e-mail is external exactly when its setting holds a real address. */
  lemma OtherLinkExternalIff(settings: map<string, string>, link: SocialLink)
    requires link in SocialLinks && link.settingKey != EmailKey
    ensures IsExternal(GetUrl(settings, link)) <==>
      && link.settingKey in settings && settings[link.settingKey] != ""
      && !(MailtoPrefix <= settings[link.settingKey]) && settings[link.settingKey] != NoUrl
  {
    assert link.defaultUrl == NoUrl;
  }

  /**
   * A non-empty value stored for a link's key through the settings API is the
   * link's URL once the hero reads the settings object.
   */
  lemma StoredSettingShown(table: seq<SiteSetting>, i: nat, link: SocialLink)
    requires Unique(table, SettingKey) && i < |table|
    requires table[i].key == link.settingKey && table[i].value != "" && link.settingKey != EmailKey
    ensures GetUrl(Routes.SettingsGet(table).body.payload.settings, link) == table[i].value
  {
    Routes.SettingsMapOfUniqueKeys(table, i);
  }
}
