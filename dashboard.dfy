/**
 * The signed-in dashboard: the role derived from the profile, the sidebar
 * entries each role sees, and which tab body is rendered for the active tab.
 */
module Dashboard {
  import opened Wrappers
  import opened Records

  /** `profile?.role === "doctor"`. */
  predicate IsDoctor(profile: Option<Profile>) {
    profile.Some? && profile.value.role == Doctor
  }

  /** The tab bodies the page can render. */
  datatype Body = DoctorReviewView | DiagnosisUploadView | HistoryView(forDoctor: bool)
                | AssistantView | PatientsView | SettingsView

  /** The tab body for the active tab: five independent conditions, concatenated. */
  function TabBodies(activeTab: string, isDoctor: bool): (r: seq<Body>)
    ensures |r| <= 1
    ensures activeTab == "upload" ==> r == [if isDoctor then DoctorReviewView else DiagnosisUploadView]
    ensures activeTab == "history" ==> r == [HistoryView(isDoctor)]
    ensures activeTab == "settings" ==> r == [SettingsView]
    ensures activeTab == "assistant" ==> r == (if isDoctor then [] else [AssistantView])
    ensures activeTab == "patients" ==> r == (if isDoctor then [PatientsView] else [])
    ensures AssistantView in r <==> activeTab == "assistant" && !isDoctor
    ensures PatientsView in r <==> activeTab == "patients" && isDoctor
    ensures activeTab !in {"upload", "history", "assistant", "patients", "settings"} ==> r == []
  {
    (if activeTab == "upload" then [if isDoctor then DoctorReviewView else DiagnosisUploadView] else [])
    + (if activeTab == "history" then [HistoryView(isDoctor)] else [])
    + (if activeTab == "assistant" && !isDoctor then [AssistantView] else [])
    + (if activeTab == "patients" && isDoctor then [PatientsView] else [])
    + (if activeTab == "settings" then [SettingsView] else [])
  }

  /** A doctor never sees the assistant and a patient never sees the patient list, whatever the tab. */
  lemma RoleGatedBodies(activeTab: string, isDoctor: bool)
    ensures isDoctor ==> AssistantView !in TabBodies(activeTab, isDoctor) && DiagnosisUploadView !in TabBodies(activeTab, isDoctor)
    ensures !isDoctor ==> PatientsView !in TabBodies(activeTab, isDoctor) && DoctorReviewView !in TabBodies(activeTab, isDoctor)
  {
  }

  /** A sidebar entry: the tab it selects and its caption. */
  datatype NavEntry = NavEntry(tab: string, caption: string)

  /** The sidebar; the assistant entry is for patients, the patients entry for doctors. */
  function Nav(isDoctor: bool): (r: seq<NavEntry>)
    ensures (exists e :: e in r && e.tab == "assistant") <==> !isDoctor
    ensures (exists e :: e in r && e.tab == "patients") <==> isDoctor
    ensures |r| == 4 && r[0].tab == "upload" && r[1].tab == "history" && r[3].tab == "settings"
  {
    [NavEntry("upload", if isDoctor then "待审核诊断" else "上传诊断"),
     NavEntry("history", if isDoctor then "审核历史" else "诊断历史")]
    + (if !isDoctor then [NavEntry("assistant", "健康助手")] else [])
    + (if isDoctor then [NavEntry("patients", "患者管理")] else [])
    + [NavEntry("settings", "设置")]
  }

  /** Every sidebar entry a role sees leads to exactly one rendered body. */
  lemma NavEntriesRender(isDoctor: bool)
    ensures forall e :: e in Nav(isDoctor) ==> |TabBodies(e.tab, isDoctor)| == 1
  {
    var nav := Nav(isDoctor);
    forall e | e in nav ensures |TabBodies(e.tab, isDoctor)| == 1 {
      assert e.tab in {"upload", "history", "assistant", "patients", "settings"};
    }
  }

  /** What the page shows. */
  datatype Page = Loading | Shell(roleBadge: string, nav: seq<NavEntry>, bodies: seq<Body>)

  /** The page for a profile and an active tab; without a profile only the loading view. */
  function Render(profile: Option<Profile>, activeTab: string): (p: Page)
    ensures p == Loading <==> profile.None?
    ensures p.Shell? ==> p.roleBadge == (if profile.value.role == Doctor then "医生" else "患者")
    ensures p.Shell? ==> p.nav == Nav(IsDoctor(profile)) && p.bodies == TabBodies(activeTab, IsDoctor(profile))
  {
    if profile.None? then Loading
    else
      var doctor := IsDoctor(profile);
      Shell(if doctor then "医生" else "患者", Nav(doctor), TabBodies(activeTab, doctor))
  }

  /** The dashboard's own state: the active tab. */
  class DashboardState {
    var activeTab: string

    constructor ()
      ensures activeTab == "upload"
    {
      activeTab := "upload";
    }

    /** A sidebar click. */
    method SelectTab(tab: string)
      modifies this
      ensures activeTab == tab
    {
      activeTab := tab;
    }
  }

  /** Right after sign-in, a doctor lands on the review panel and a patient on the upload form. */
  method Landing(profile: Profile) returns (p: Page)
    ensures p.Shell? && p.bodies == [if profile.role == Doctor then DoctorReviewView else DiagnosisUploadView]
  {
    var state := new DashboardState();
    p := Render(Some(profile), state.activeTab);
  }
}
