/** The renderer's translation tables and the `getTranslation` lookup
    (src/renderer/src/translations/index.js). A table is kept as the object
    literal's entries in source order, one constant per commented group of the
    source; property access takes the last entry with the key, as a duplicated
    key in a JavaScript object literal does (`application` is listed twice in
    both tables, with one value). */
module Translations {
  import opened Options

  const EnglishAppHeader: seq<(string, string)> := [
    ("appTitle", "Desktop Task Launcher"),
    ("platformInfo", "Platform")
  ]
  const EnglishTaskManagement: seq<(string, string)> := [
    ("addTask", "Add Task"),
    ("editTask", "Edit Task"),
    ("deleteTask", "Delete Task"),
    ("runTask", "Run Task"),
    ("editTaskBtn", "Edit"),
    ("noTasks", "No tasks yet"),
    ("noTasksDescription", "Create your first task to get started!")
  ]
  const EnglishTaskTypes: seq<(string, string)> := [
    ("taskType", "Task Type"),
    ("application", "Application"),
    ("website", "Website"),
    ("command", "Command"),
    ("server", "Server"),
    ("app", "Application")
  ]
  const EnglishTaskForm: seq<(string, string)> := [
    ("taskName", "Task Name"),
    ("taskCommand", "Task Command"),
    ("taskNamePlaceholder", "Enter task name..."),
    ("taskCommandPlaceholder", "Enter command or path..."),
    ("unnamedTask", "Unnamed Task")
  ]
  const EnglishMultiTaskExecution: seq<(string, string)> := [
    ("runMultiple", "Run Selected"),
    ("selectAll", "Select All"),
    ("clearSelection", "Clear Selection")
  ]
  const EnglishTaskGroups: seq<(string, string)> := [
    ("taskGroups", "Task Groups"),
    ("saveAsGroup", "Save as Group"),
    ("saveGroup", "Save Group"),
    ("saveCurrentSelection", "Save Current Selection"),
    ("groupNamePlaceholder", "Enter group name..."),
    ("existingGroups", "Existing Groups"),
    ("noTaskGroups", "No task groups yet. Create your first one!"),
    ("runGroup", "Run Group"),
    ("deleteGroup", "Delete Group"),
    ("createShortcut", "Create Shortcut")
  ]
  const EnglishMultiTaskCreation: seq<(string, string)> := [
    ("singleTask", "Single Task"),
    ("multipleTasks", "Multiple Tasks"),
    ("createMultipleTasks", "Create Multiple Tasks"),
    ("multiTaskDescription", "Create multiple related tasks at once. Perfect for setting up task groups!"),
    ("addAnotherTask", "Add Another Task"),
    ("clearAllTasks", "Clear All Tasks"),
    ("createAllTasks", "Create All Tasks")
  ]
  const EnglishWindowArranger: seq<(string, string)> := [
    ("arrangeWindows", "Arrange Windows"),
    ("splitLeftRight", "Split Left/Right"),
    ("splitTopBottom", "Split Top/Bottom"),
    ("grid2x2", "Grid 2x2"),
    ("grid3x3", "Grid 3x3"),
    ("cascade", "Cascade"),
    ("tile", "Tile"),
    ("splitHorizontal", "Split Horizontal"),
    ("splitVertical", "Split Vertical"),
    ("quadrant", "Quadrant")
  ]
  const EnglishProgramPicker: seq<(string, string)> := [
    ("showInstalled", "Show Installed"),
    ("browseForFile", "Browse for File"),
    ("browsePrograms", "Browse Programs"),
    ("searchPrograms", "Search programs..."),
    ("noProgramsFound", "No programs found"),
    ("refreshPrograms", "Refresh"),
    ("programsSummary", "Programs Summary"),
    ("totalPrograms", "Total Programs"),
    ("programTypes", "Program Types")
  ]
  const EnglishMessages: seq<(string, string)> := [
    ("taskAdded", "Task added successfully!"),
    ("taskUpdated", "Task updated successfully!"),
    ("taskDeleted", "Task deleted successfully!"),
    ("taskExecuted", "Task executed successfully!"),
    ("errorExecutingTask", "Error executing task"),
    ("errorLoadingTasks", "Error loading tasks"),
    ("errorSavingTasks", "Error saving tasks")
  ]
  const EnglishProgramTypes: seq<(string, string)> := [
    ("executable", "Executable"),
    ("shortcut", "Shortcut"),
    ("application", "Application"),
    ("modernApp", "Modern App"),
    ("popularApp", "Popular App"),
    ("portableApp", "Portable App"),
    ("designApp", "Design App")
  ]
  const EnglishCommonActions: seq<(string, string)> := [
    ("cancel", "Cancel"),
    ("save", "Save")
  ]
  const EnglishLanguage: seq<(string, string)> := [
    ("language", "Language"),
    ("english", "English"),
    ("arabic", "العربية")
  ]

  const ArabicAppHeader: seq<(string, string)> := [
    ("appTitle", "قم بانشاء اختصارك الخاص"),
    ("platformInfo", "المنصة")
  ]
  const ArabicTaskManagement: seq<(string, string)> := [
    ("addTask", "إضافة مهمة"),
    ("editTask", "تعديل المهمة"),
    ("deleteTask", "حذف المهمة"),
    ("runTask", "تشغيل المهمة"),
    ("editTaskBtn", "تعديل"),
    ("noTasks", "لا توجد مهام بعد"),
    ("noTasksDescription", "أنشئ مهمتك الأولى للبدء!")
  ]
  const ArabicTaskTypes: seq<(string, string)> := [
    ("taskType", "نوع المهمة"),
    ("application", "تطبيق"),
    ("website", "موقع ويب"),
    ("command", "أمر"),
    ("server", "خادم"),
    ("app", "تطبيق")
  ]
  const ArabicTaskForm: seq<(string, string)> := [
    ("taskName", "اسم المهمة"),
    ("taskCommand", "أمر المهمة"),
    ("taskNamePlaceholder", "أدخل اسم المهمة..."),
    ("taskCommandPlaceholder", "أدخل الأمر أو المسار..."),
    ("unnamedTask", "مهمة بدون اسم")
  ]
  const ArabicMultiTaskExecution: seq<(string, string)> := [
    ("runMultiple", "تشغيل المحدد"),
    ("selectAll", "تحديد الكل"),
    ("clearSelection", "مسح التحديد")
  ]
  const ArabicTaskGroups: seq<(string, string)> := [
    ("taskGroups", "مجموعات المهام"),
    ("saveAsGroup", "حفظ كمجموعة"),
    ("saveGroup", "حفظ المجموعة"),
    ("saveCurrentSelection", "حفظ التحديد الحالي"),
    ("groupNamePlaceholder", "أدخل اسم المجموعة..."),
    ("existingGroups", "المجموعات الموجودة"),
    ("noTaskGroups", "لا توجد مجموعات مهام بعد. أنشئ أول مجموعة!"),
    ("runGroup", "تشغيل المجموعة"),
    ("deleteGroup", "حذف المجموعة"),
    ("createShortcut", "إنشاء اختصار")
  ]
  const ArabicMultiTaskCreation: seq<(string, string)> := [
    ("singleTask", "مهمة واحدة"),
    ("multipleTasks", "مهام متعددة"),
    ("createMultipleTasks", "إنشاء مهام متعددة"),
    ("multiTaskDescription", "أنشئ مهام متعددة ذات صلة في وقت واحد. مثالي لإعداد مجموعات المهام!"),
    ("addAnotherTask", "إضافة مهمة أخرى"),
    ("clearAllTasks", "مسح جميع المهام"),
    ("createAllTasks", "إنشاء جميع المهام")
  ]
  const ArabicWindowArranger: seq<(string, string)> := [
    ("arrangeWindows", "ترتيب النوافذ"),
    ("splitLeftRight", "تقسيم يسار/يمين"),
    ("splitTopBottom", "تقسيم أعلى/أسفل"),
    ("grid2x2", "شبكة 2×2"),
    ("grid3x3", "شبكة 3×3"),
    ("cascade", "متتالي"),
    ("tile", "بلاط"),
    ("splitHorizontal", "تقسيم أفقي"),
    ("splitVertical", "تقسيم عمودي"),
    ("quadrant", "أرباع")
  ]
  const ArabicProgramPicker: seq<(string, string)> := [
    ("showInstalled", "إظهار المثبت"),
    ("browseForFile", "تصفح الملف"),
    ("browsePrograms", "تصفح البرامج"),
    ("searchPrograms", "البحث في البرامج..."),
    ("noProgramsFound", "لم يتم العثور على برامج"),
    ("refreshPrograms", "تحديث"),
    ("programsSummary", "ملخص البرامج"),
    ("totalPrograms", "إجمالي البرامج"),
    ("programTypes", "أنواع البرامج")
  ]
  const ArabicMessages: seq<(string, string)> := [
    ("taskAdded", "تمت إضافة المهمة بنجاح!"),
    ("taskUpdated", "تم تحديث المهمة بنجاح!"),
    ("taskDeleted", "تم حذف المهمة بنجاح!"),
    ("taskExecuted", "تم تنفيذ المهمة بنجاح!"),
    ("errorExecutingTask", "خطأ في تنفيذ المهمة"),
    ("errorLoadingTasks", "خطأ في تحميل المهام"),
    ("errorSavingTasks", "خطأ في حفظ المهام")
  ]
  const ArabicProgramTypes: seq<(string, string)> := [
    ("executable", "قابل للتنفيذ"),
    ("shortcut", "اختصار"),
    ("application", "تطبيق"),
    ("modernApp", "تطبيق حديث"),
    ("popularApp", "تطبيق شائع"),
    ("portableApp", "تطبيق محمول"),
    ("designApp", "تطبيق تصميم")
  ]
  const ArabicCommonActions: seq<(string, string)> := [
    ("cancel", "إلغاء"),
    ("save", "حفظ")
  ]
  const ArabicLanguage: seq<(string, string)> := [
    ("language", "اللغة"),
    ("english", "الإنجليزية"),
    ("arabic", "العربية")
  ]

  /** The `en` table. */
  const English: seq<(string, string)> :=
    EnglishAppHeader + EnglishTaskManagement + EnglishTaskTypes + EnglishTaskForm
    + EnglishMultiTaskExecution + EnglishTaskGroups + EnglishMultiTaskCreation + EnglishWindowArranger
    + EnglishProgramPicker + EnglishMessages + EnglishProgramTypes + EnglishCommonActions
    + EnglishLanguage

  /** The `ar` table. */
  const Arabic: seq<(string, string)> :=
    ArabicAppHeader + ArabicTaskManagement + ArabicTaskTypes + ArabicTaskForm
    + ArabicMultiTaskExecution + ArabicTaskGroups + ArabicMultiTaskCreation + ArabicWindowArranger
    + ArabicProgramPicker + ArabicMessages + ArabicProgramTypes + ArabicCommonActions
    + ArabicLanguage

  /** Property access on an object literal: the value of the last entry named `key`. */
  function Property(entries: seq<(string, string)>, key: string): (r: Option<string>)
    ensures r.None? <==> forall i :: 0 <= i < |entries| ==> entries[i].0 != key
    ensures r.Some? ==> exists i :: 0 <= i < |entries| && entries[i] == (key, r.value)
                                   && forall j :: i < j < |entries| ==> entries[j].0 != key
  {
    if |entries| == 0 then None
    else if entries[|entries| - 1].0 == key then Some(entries[|entries| - 1].1)
    else Property(entries[..|entries| - 1], key)
  }

  /** The `translations` object: the table for a language code, if there is one. */
  function Table(language: string): Option<seq<(string, string)>> {
    if language == "en" then Some(English)
    else if language == "ar" then Some(Arabic)
    else None
  }

  /** Some entry of the table pairs `key` with the text `v`. */
  predicate Gives(entries: seq<(string, string)>, key: string, v: string) {
    exists i :: 0 <= i < |entries| && entries[i] == (key, v)
  }

  /** `translations[language]?.[key]`. */
  function Lookup(language: string, key: string): Option<string> {
    match Table(language)
    case None => None
    case Some(entries) => Property(entries, key)
  }

  /** JavaScript truthiness of a looked-up string: present and non-empty. */
  predicate Truthy(v: Option<string>) {
    v.Some? && v.value != ""
  }

  /** `getTranslation(key, language = 'en')`: the requested table's entry if it is
      non-empty, else the English entry if non-empty, else `key` itself.
      `None` is an omitted language argument. Whatever the language, the answer
      is the key or a non-empty text one of the tables gives for that key; when
      English has text for the key the answer is always table text, and Arabic
      text for a key is always served to the `ar` language. */
  function GetTranslation(key: string, language: Option<string>): (r: string)
    ensures r == key || (r != "" && (Gives(English, key, r) || Gives(Arabic, key, r)))
    ensures Truthy(Property(English, key)) ==> r != "" && (Gives(English, key, r) || Gives(Arabic, key, r))
    ensures language.Some? && language.value == "ar" && Truthy(Property(Arabic, key)) ==> Gives(Arabic, key, r)
  {
    var lang := language.GetOr("en");
    if Truthy(Lookup(lang, key)) then Lookup(lang, key).value
    else if Truthy(Property(English, key)) then Property(English, key).value
    else key
  }

  /** A non-empty key never translates to the empty string. */
  lemma GetTranslationNonEmpty(key: string, language: Option<string>)
    requires key != ""
    ensures GetTranslation(key, language) != ""
  {
  }

  /** A language without a table, and an omitted language, both behave as "en". */
  lemma UnknownLanguageIsEnglish(key: string, language: string)
    requires Table(language).None?
    ensures GetTranslation(key, Some(language)) == GetTranslation(key, Some("en"))
    ensures GetTranslation(key, None) == GetTranslation(key, Some("en"))
  {
  }

  /** Two entry lists name the same keys in the same order, and no value in either is empty. */
  predicate Matching(a: seq<(string, string)>, b: seq<(string, string)>) {
    && |a| == |b|
    && (forall i :: 0 <= i < |a| ==> a[i].0 == b[i].0)
    && (forall i :: 0 <= i < |a| ==> a[i].1 != "")
    && (forall i :: 0 <= i < |b| ==> b[i].1 != "")
  }

  lemma MatchingAppend(a1: seq<(string, string)>, b1: seq<(string, string)>,
                       a2: seq<(string, string)>, b2: seq<(string, string)>)
    requires Matching(a1, b1) && Matching(a2, b2)
    ensures Matching(a1 + a2, b1 + b2)
  {
    forall i | 0 <= i < |a1 + a2| ensures (a1 + a2)[i].0 == (b1 + b2)[i].0 {
      if i >= |a1| {
        assert (a1 + a2)[i] == a2[i - |a1|] && (b1 + b2)[i] == b2[i - |b1|];
      }
    }
  }

  lemma AppHeaderMatches()
    ensures Matching(ArabicAppHeader, EnglishAppHeader)
  {
  }

  lemma TaskManagementMatches()
    ensures Matching(ArabicTaskManagement, EnglishTaskManagement)
  {
  }

  lemma TaskTypesMatches()
    ensures Matching(ArabicTaskTypes, EnglishTaskTypes)
  {
  }

  lemma TaskFormMatches()
    ensures Matching(ArabicTaskForm, EnglishTaskForm)
  {
  }

  lemma MultiTaskExecutionMatches()
    ensures Matching(ArabicMultiTaskExecution, EnglishMultiTaskExecution)
  {
  }

  lemma TaskGroupsMatches()
    ensures Matching(ArabicTaskGroups, EnglishTaskGroups)
  {
  }

  lemma MultiTaskCreationMatches()
    ensures Matching(ArabicMultiTaskCreation, EnglishMultiTaskCreation)
  {
  }

  lemma WindowArrangerMatches()
    ensures Matching(ArabicWindowArranger, EnglishWindowArranger)
  {
  }

  lemma ProgramPickerMatches()
    ensures Matching(ArabicProgramPicker, EnglishProgramPicker)
  {
  }

  lemma MessagesMatches()
    ensures Matching(ArabicMessages, EnglishMessages)
  {
  }

  lemma ProgramTypesMatches()
    ensures Matching(ArabicProgramTypes, EnglishProgramTypes)
  {
  }

  lemma CommonActionsMatches()
    ensures Matching(ArabicCommonActions, EnglishCommonActions)
  {
  }

  lemma LanguageMatches()
    ensures Matching(ArabicLanguage, EnglishLanguage)
  {
  }

  /** The Arabic table lists exactly the English table's keys, in the same
      order, and neither table holds an empty entry. */
  lemma TablesMatch()
    ensures Matching(Arabic, English)
  {
    AppHeaderMatches();
    TaskManagementMatches();
    MatchingAppend(ArabicAppHeader, EnglishAppHeader, ArabicTaskManagement, EnglishTaskManagement);
    TaskTypesMatches();
    MatchingAppend(ArabicAppHeader + ArabicTaskManagement, EnglishAppHeader + EnglishTaskManagement, ArabicTaskTypes, EnglishTaskTypes);
    TaskFormMatches();
    MatchingAppend(ArabicAppHeader + ArabicTaskManagement + ArabicTaskTypes, EnglishAppHeader + EnglishTaskManagement + EnglishTaskTypes, ArabicTaskForm, EnglishTaskForm);
    MultiTaskExecutionMatches();
    MatchingAppend(ArabicAppHeader + ArabicTaskManagement + ArabicTaskTypes + ArabicTaskForm, EnglishAppHeader + EnglishTaskManagement + EnglishTaskTypes + EnglishTaskForm, ArabicMultiTaskExecution, EnglishMultiTaskExecution);
    TaskGroupsMatches();
    MatchingAppend(ArabicAppHeader + ArabicTaskManagement + ArabicTaskTypes + ArabicTaskForm + ArabicMultiTaskExecution, EnglishAppHeader + EnglishTaskManagement + EnglishTaskTypes + EnglishTaskForm + EnglishMultiTaskExecution, ArabicTaskGroups, EnglishTaskGroups);
    MultiTaskCreationMatches();
    MatchingAppend(ArabicAppHeader + ArabicTaskManagement + ArabicTaskTypes + ArabicTaskForm + ArabicMultiTaskExecution + ArabicTaskGroups, EnglishAppHeader + EnglishTaskManagement + EnglishTaskTypes + EnglishTaskForm + EnglishMultiTaskExecution + EnglishTaskGroups, ArabicMultiTaskCreation, EnglishMultiTaskCreation);
    WindowArrangerMatches();
    MatchingAppend(ArabicAppHeader + ArabicTaskManagement + ArabicTaskTypes + ArabicTaskForm + ArabicMultiTaskExecution + ArabicTaskGroups + ArabicMultiTaskCreation, EnglishAppHeader + EnglishTaskManagement + EnglishTaskTypes + EnglishTaskForm + EnglishMultiTaskExecution + EnglishTaskGroups + EnglishMultiTaskCreation, ArabicWindowArranger, EnglishWindowArranger);
    ProgramPickerMatches();
    MatchingAppend(ArabicAppHeader + ArabicTaskManagement + ArabicTaskTypes + ArabicTaskForm + ArabicMultiTaskExecution + ArabicTaskGroups + ArabicMultiTaskCreation + ArabicWindowArranger, EnglishAppHeader + EnglishTaskManagement + EnglishTaskTypes + EnglishTaskForm + EnglishMultiTaskExecution + EnglishTaskGroups + EnglishMultiTaskCreation + EnglishWindowArranger, ArabicProgramPicker, EnglishProgramPicker);
    MessagesMatches();
    MatchingAppend(ArabicAppHeader + ArabicTaskManagement + ArabicTaskTypes + ArabicTaskForm + ArabicMultiTaskExecution + ArabicTaskGroups + ArabicMultiTaskCreation + ArabicWindowArranger + ArabicProgramPicker, EnglishAppHeader + EnglishTaskManagement + EnglishTaskTypes + EnglishTaskForm + EnglishMultiTaskExecution + EnglishTaskGroups + EnglishMultiTaskCreation + EnglishWindowArranger + EnglishProgramPicker, ArabicMessages, EnglishMessages);
    ProgramTypesMatches();
    MatchingAppend(ArabicAppHeader + ArabicTaskManagement + ArabicTaskTypes + ArabicTaskForm + ArabicMultiTaskExecution + ArabicTaskGroups + ArabicMultiTaskCreation + ArabicWindowArranger + ArabicProgramPicker + ArabicMessages, EnglishAppHeader + EnglishTaskManagement + EnglishTaskTypes + EnglishTaskForm + EnglishMultiTaskExecution + EnglishTaskGroups + EnglishMultiTaskCreation + EnglishWindowArranger + EnglishProgramPicker + EnglishMessages, ArabicProgramTypes, EnglishProgramTypes);
    CommonActionsMatches();
    MatchingAppend(ArabicAppHeader + ArabicTaskManagement + ArabicTaskTypes + ArabicTaskForm + ArabicMultiTaskExecution + ArabicTaskGroups + ArabicMultiTaskCreation + ArabicWindowArranger + ArabicProgramPicker + ArabicMessages + ArabicProgramTypes, EnglishAppHeader + EnglishTaskManagement + EnglishTaskTypes + EnglishTaskForm + EnglishMultiTaskExecution + EnglishTaskGroups + EnglishMultiTaskCreation + EnglishWindowArranger + EnglishProgramPicker + EnglishMessages + EnglishProgramTypes, ArabicCommonActions, EnglishCommonActions);
    LanguageMatches();
    MatchingAppend(ArabicAppHeader + ArabicTaskManagement + ArabicTaskTypes + ArabicTaskForm + ArabicMultiTaskExecution + ArabicTaskGroups + ArabicMultiTaskCreation + ArabicWindowArranger + ArabicProgramPicker + ArabicMessages + ArabicProgramTypes + ArabicCommonActions, EnglishAppHeader + EnglishTaskManagement + EnglishTaskTypes + EnglishTaskForm + EnglishMultiTaskExecution + EnglishTaskGroups + EnglishMultiTaskCreation + EnglishWindowArranger + EnglishProgramPicker + EnglishMessages + EnglishProgramTypes + EnglishCommonActions, ArabicLanguage, EnglishLanguage);
  }

  /** Every key the Arabic table defines is also defined by the English table. */
  lemma ArabicKeysAreEnglishKeys(key: string)
    requires Property(Arabic, key).Some?
    ensures Property(English, key).Some?
  {
    TablesMatch();
    var i :| 0 <= i < |Arabic| && Arabic[i].0 == key;
    assert English[i].0 == key;
  }

  /** A key present in a table always yields that table's own entry. */
  lemma PresentKeyYieldsOwnEntry(key: string, language: string)
    requires Lookup(language, key).Some?
    ensures GetTranslation(key, Some(language)) == Lookup(language, key).value
  {
    TablesMatch();
    var entries := Table(language).value;
    var i :| 0 <= i < |entries| && entries[i] == (key, Lookup(language, key).value);
  }
}
