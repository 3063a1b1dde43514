/**
 * `constants/api.ts`: the API's base URL, the table of endpoint paths and
 * `buildApiUrl`, which appends an endpoint to the base URL and fills in its
 * `:name` path parameters.
 */
module ApiConstants {
  import opened Wrappers
  import Strings

  const BaseUrl: string := "https://www.kamwaalay.com/api"

  /** The entries of `API_ENDPOINTS`, named after their group and key. */
  datatype Endpoint =
    | AuthLogin
    | AuthRegister
    | AuthVerify
    | AuthLogout
    | AuthForgotPassword
    | AuthResetPassword
    | AuthResetPasswordWithToken
    | ServiceTypesList
    | ProfileGet
    | ProfileUpdate
    | ProfilePhoto
    | PasswordUpdate
    | OnboardingHelper
    | OnboardingBusiness
    | JobsBrowse
    | JobPostsList
    | JobPostsBrowse
    | JobPostsMyPosts
    | JobPostsCreateForm
    | JobPostsCreate
    | JobPostsGet
    | JobPostsUpdate
    | JobPostsDelete
    | BookingsList
    | BookingsCreateForm
    | BookingsCreate
    | BookingsGet
    | BookingsUpdate
    | BookingsDelete
    | BookingsApply
    | BookingsReview
    | BookingsCreateReview
    | JobApplicationsList
    | JobApplicationsGet
    | JobApplicationsAccept
    | JobApplicationsReject
    | JobApplicationsWithdraw
    | JobApplicationsMyApplications
    | JobApplicationsMyRequestApplications
    | HelpersList
    | HelpersCreate
    | HelpersGet
    | HelpersEdit
    | BusinessesList
    | BusinessesCreate
    | BusinessesGet
    | BusinessesEdit
    | ServiceListingsList
    | ServiceListingsCreate
    | ServiceListingsGet
    | ServiceListingsUpdate
    | ServiceListingsDelete
    | ServiceListingsMyListings
    | ReviewsGet
    | ReviewsEdit
    | MessagesConversations
    | MessagesCreateConversation
    | MessagesGetMessages
    | MessagesDeleteConversation
    | MessagesSend
    | MessagesDelete
    | LocationsSearch
    | LocationsKarachiSearch
    | CitiesList
    | NotificationsList
    | NotificationsUnreadCount
    | NotificationsMarkRead
    | NotificationsMarkAllRead
    | HomeGet
    | SupportContact
    | SupportFaq
    | LegalTerms
    | LegalPrivacy
    | LegalAbout
    | LanguagesList

  /** The path of each endpoint; every one starts with `/`. */
  function Path(e: Endpoint): (r: string)
    ensures |r| > 0 && r[0] == '/'
  {
    match e
    case AuthLogin => "/login"
    case AuthRegister => "/register"
    case AuthVerify => "/verify-otp"
    case AuthLogout => "/logout"
    case AuthForgotPassword => "/forgot-password"
    case AuthResetPassword => "/reset-password"
    case AuthResetPasswordWithToken => "/reset-password/:token"
    case ServiceTypesList => "/service-types"
    case ProfileGet => "/profile"
    case ProfileUpdate => "/profile"
    case ProfilePhoto => "/profile/photo"
    case PasswordUpdate => "/password"
    case OnboardingHelper => "/onboarding/helper"
    case OnboardingBusiness => "/onboarding/business"
    case JobsBrowse => "/bookings/browse"
    case JobPostsList => "/job-posts"
    case JobPostsBrowse => "/bookings/browse"
    case JobPostsMyPosts => "/my-job-posts"
    case JobPostsCreateForm => "/job-posts/create"
    case JobPostsCreate => "/bookings"
    case JobPostsGet => "/job-posts/:id"
    case JobPostsUpdate => "/job-posts/:id"
    case JobPostsDelete => "/job-posts/:id"
    case BookingsList => "/bookings"
    case BookingsCreateForm => "/bookings/create"
    case BookingsCreate => "/bookings"
    case BookingsGet => "/bookings/:id"
    case BookingsUpdate => "/bookings/:id"
    case BookingsDelete => "/bookings/:id"
    case BookingsApply => "/bookings/:id/apply"
    case BookingsReview => "/bookings/:id/review"
    case BookingsCreateReview => "/bookings/:id/review/create"
    case JobApplicationsList => "/job-applications"
    case JobApplicationsGet => "/job-applications/:id"
    case JobApplicationsAccept => "/job-applications/:id/accept"
    case JobApplicationsReject => "/job-applications/:id/reject"
    case JobApplicationsWithdraw => "/job-applications/:id/withdraw"
    case JobApplicationsMyApplications => "/my-applications"
    case JobApplicationsMyRequestApplications => "/my-request-applications"
    case HelpersList => "/helpers"
    case HelpersCreate => "/helpers"
    case HelpersGet => "/helpers/:id"
    case HelpersEdit => "/helpers/:id/edit"
    case BusinessesList => "/businesses"
    case BusinessesCreate => "/businesses"
    case BusinessesGet => "/businesses/:id"
    case BusinessesEdit => "/businesses/:id/edit"
    case ServiceListingsList => "/service-listings"
    case ServiceListingsCreate => "/service-listings"
    case ServiceListingsGet => "/service-listings/:id"
    case ServiceListingsUpdate => "/service-listings/:id"
    case ServiceListingsDelete => "/service-listings/:id"
    case ServiceListingsMyListings => "/service-listings/my-service-listings"
    case ReviewsGet => "/reviews/:id"
    case ReviewsEdit => "/reviews/:id/edit"
    case MessagesConversations => "/conversations"
    case MessagesCreateConversation => "/conversations"
    case MessagesGetMessages => "/conversations/:id/messages"
    case MessagesDeleteConversation => "/conversations/:id"
    case MessagesSend => "/messages"
    case MessagesDelete => "/messages/:id"
    case LocationsSearch => "/locations/search"
    case LocationsKarachiSearch => "/karachi-locations/search"
    case CitiesList => "/cities"
    case NotificationsList => "/notifications"
    case NotificationsUnreadCount => "/notifications/unread-count"
    case NotificationsMarkRead => "/notifications/:id/read"
    case NotificationsMarkAllRead => "/notifications/read-all"
    case HomeGet => "/home"
    case SupportContact => "/contact"
    case SupportFaq => "/faq"
    case LegalTerms => "/terms"
    case LegalPrivacy => "/privacy"
    case LegalAbout => "/about"
    case LanguagesList => "/languages"
  }

  /** The base URL does not end in `/` and every endpoint starts with one, so
      appending an endpoint puts exactly one `/` at the seam. */
  lemma JoinHasOneSlash(e: Endpoint)
    ensures BaseUrl[|BaseUrl| - 1] != '/'
    ensures (BaseUrl + Path(e))[|BaseUrl|] == '/'
    ensures !Strings.OccursAt(BaseUrl + Path(e), "//", |BaseUrl| - 1)
  {
    var u := BaseUrl + Path(e);
    assert u[|BaseUrl| - 1] == BaseUrl[|BaseUrl| - 1] == 'i';
    assert u[|BaseUrl| - 1..|BaseUrl| + 1][0] == 'i';
  }

  /** The path parameters applied in key order: each replaces only the first
      `:key` left in the URL at its turn, by the value's replacement text
      (where `$&`, `$$`, `` $` `` and `$'` are expanded). */
  function ApplyParams(url: string, params: seq<(string, string)>): string
    decreases |params|
  {
    if params == [] then url
    else ApplyParams(Strings.ReplaceFirstPattern(url, ":" + params[0].0, params[0].1), params[1..])
  }

  /** `buildApiUrl(endpoint, params)`; the keys of `params` come in the order
      `Object.keys` lists them. */
  method BuildApiUrl(endpoint: string, params: Option<seq<(string, string)>>) returns (url: string)
    ensures url == ApplyParams(BaseUrl + endpoint, params.GetOr([]))
    ensures params.None? || params == Some([]) ==> url == BaseUrl + endpoint
  {
    url := BaseUrl + endpoint;
    if params.Some? {
      var keys := params.value;
      var i := 0;
      while i < |keys|
        invariant 0 <= i <= |keys|
        invariant ApplyParams(url, keys[i..]) == ApplyParams(BaseUrl + endpoint, keys)
      {
        assert keys[i..][1..] == keys[i + 1..];
        url := Strings.ReplaceFirstPattern(url, ":" + keys[i].0, keys[i].1);
        i := i + 1;
      }
    }
  }

  /** A key whose `:key` does not occur in the URL changes nothing. */
  lemma AbsentKeyIgnored(url: string, key: string, value: string, rest: seq<(string, string)>)
    requires !Strings.Contains(url, ":" + key)
    ensures ApplyParams(url, [(key, value)] + rest) == ApplyParams(url, rest)
  {
    assert ([(key, value)] + rest)[1..] == rest;
  }

  /** One step of `ApplyParams`. */
  lemma ApplyFirst(url: string, key: string, value: string, rest: seq<(string, string)>)
    ensures ApplyParams(url, [(key, value)] + rest) == ApplyParams(Strings.ReplaceFirstPattern(url, ":" + key, value), rest)
  {
    assert ([(key, value)] + rest)[1..] == rest;
  }

  /** No `:key` token starts in `url` before position `n`. */
  predicate NoTokenBefore(url: string, key: string, n: int) {
    forall j :: 0 <= j < n ==> !Strings.OccursAt(url, ":" + key, j)
  }

  /** When no `:key` token starts before the one after `pre`, that one is
      the first occurrence `replace` finds. */
  lemma FirstToken(pre: string, key: string, post: string)
    requires NoTokenBefore(pre + ":" + key + post, key, |pre|)
    ensures Strings.IndexOf(pre + ":" + key + post, ":" + key) == Some(|pre|)
  {
    var s := pre + ":" + key + post;
    var p := ":" + key;
    assert s[|pre|..|pre| + |p|] == p;
    Strings.IndexOfAt(s, p, |pre|);
  }

  /** That first token is replaced by a `$`-free value, the text around it kept. */
  lemma ReplaceFirstToken(pre: string, key: string, post: string, value: string)
    requires NoTokenBefore(pre + ":" + key + post, key, |pre|) && '$' !in value
    ensures Strings.ReplaceFirstPattern(pre + ":" + key + post, ":" + key, value) == pre + value + post
  {
    var s := pre + ":" + key + post;
    FirstToken(pre, key, post);
    assert s[..|pre|] == pre && s[|pre| + |":" + key|..] == post;
  }

  /** Only the first occurrence of a token is replaced: whatever follows it,
      further `:key` tokens included, is kept as it is. */
  lemma FirstOccurrenceOnly(pre: string, key: string, post: string, value: string)
    requires NoTokenBefore(pre + ":" + key + post, key, |pre|) && '$' !in value
    ensures ApplyParams(pre + ":" + key + post, [(key, value)]) == pre + value + post
  {
    ApplyFirst(pre + ":" + key + post, key, value, []);
    assert [(key, value)] + [] == [(key, value)];
    ReplaceFirstToken(pre, key, post, value);
  }

  /** A value holding `$&` puts the token back: the URL keeps `:key`, so a
      parameter whose value is `$&` is never substituted. */
  lemma MatchValueKeepsToken(url: string, key: string, rest: seq<(string, string)>)
    ensures ApplyParams(url, [(key, "$&")] + rest) == ApplyParams(url, rest)
  {
    ApplyFirst(url, key, "$&", rest);
    Strings.ReplaceWithMatch(url, ":" + key);
  }

  /** Keys are applied in order, so a value that itself holds a later
      `:key` token gets replaced in turn. */
  lemma EarlierValueSubstitutedLater(pre: string, x: string, y: string, value: string)
    requires NoTokenBefore(pre + ":" + x, x, |pre|) && NoTokenBefore(pre + ":" + y, y, |pre|)
    requires '$' !in y && '$' !in value
    ensures ApplyParams(pre + ":" + x, [(x, ":" + y), (y, value)]) == pre + value
  {
    var tokenY := ":" + y;
    var once := pre + tokenY;
    assert once == pre + ":" + y;
    ApplyFirst(pre + ":" + x, x, tokenY, [(y, value)]);
    assert [(x, tokenY)] + [(y, value)] == [(x, ":" + y), (y, value)];
    TokenAtEnd(pre, x, tokenY);
    ApplyFirst(once, y, value, []);
    assert [(y, value)] + [] == [(y, value)];
    TokenAtEnd(pre, y, value);
  }

  /** A token at the very end, with no earlier token of the same key. */
  lemma TokenAtEnd(pre: string, key: string, value: string)
    requires NoTokenBefore(pre + ":" + key, key, |pre|) && '$' !in value
    ensures Strings.ReplaceFirstPattern(pre + ":" + key, ":" + key, value) == pre + value
  {
    assert pre + ":" + key + "" == pre + ":" + key;
    ReplaceFirstToken(pre, key, "", value);
    assert pre + value + "" == pre + value;
  }

  /** The only `:` of the base URL is the one after its scheme. */
  lemma BaseUrlColon(j: int)
    requires 0 <= j < |BaseUrl| && BaseUrl[j] == ':'
    ensures j == 5
  {
  }

  /** In a URL built on the base URL, from an endpoint part without `:`, no
      token of a key that does not start with `/` starts before that part
      ends: the scheme's `:` is followed by `/`. */
  lemma BaseUrlHasNoToken(p: string, key: string, post: string)
    requires ':' !in p && key != "" && key[0] != '/'
    ensures NoTokenBefore(BaseUrl + p + ":" + key + post, key, |BaseUrl + p|)
  {
    var s := BaseUrl + p + ":" + key + post;
    var tok := ":" + key;
    forall j | 0 <= j < |BaseUrl + p| ensures !Strings.OccursAt(s, tok, j) {
      if j + |tok| <= |s| {
        assert s[j..j + |tok|][0] == s[j] && tok[0] == ':';
        assert s[j..j + |tok|][1] == s[j + 1] && tok[1] == key[0];
      }
      if j < |BaseUrl| {
        assert s[j] == BaseUrl[j];
        if BaseUrl[j] == ':' {
          BaseUrlColon(j);
          assert s[j + 1] == BaseUrl[6] == '/';
        }
      } else {
        assert s[j] == p[j - |BaseUrl|];
      }
    }
  }

  /** `buildApiUrl` on an endpoint `p:key…` (the path before the token
      without `:`): the parameter replaces its token, though the base URL
      holds a `:`. */
  lemma BuiltUrlParam(p: string, key: string, post: string, value: string)
    requires ':' !in p && key != "" && key[0] != '/' && '$' !in value
    ensures ApplyParams(BaseUrl + (p + ":" + key + post), [(key, value)]) == BaseUrl + p + value + post
  {
    Regroup(BaseUrl, p, key, post);
    BaseUrlHasNoToken(p, key, post);
    FirstOccurrenceOnly(BaseUrl + p, key, post, value);
  }

  lemma Regroup(base: string, p: string, key: string, post: string)
    ensures base + (p + ":" + key + post) == base + p + ":" + key + post
  {
  }

  /** On a built URL ending in `:x`, a value `:y` for `x` is then itself
      replaced by `y`'s value. */
  lemma BuiltUrlChain(p: string, x: string, y: string, value: string)
    requires ':' !in p && x != "" && x[0] != '/' && y != "" && y[0] != '/'
    requires '$' !in y && '$' !in value
    ensures ApplyParams(BaseUrl + (p + ":" + x), [(x, ":" + y), (y, value)]) == BaseUrl + p + value
  {
    var pre := BaseUrl + p;
    Regroup(BaseUrl, p, x, "");
    assert p + ":" + x + "" == p + ":" + x;
    BaseUrlHasNoToken(p, x, "");
    assert pre + ":" + x + "" == pre + ":" + x;
    BaseUrlHasNoToken(p, y, "");
    assert pre + ":" + y + "" == pre + ":" + y;
    EarlierValueSubstitutedLater(pre, x, y, value);
  }
}
