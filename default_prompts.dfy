/**
 * The built-in catalogue of prompts the library is seeded with on first start, and the three
 * filters over it. Every timestamp the catalogue stamps is the one instant `now`.
 *
 * The catalogue literal is kept column by column, each column a function of the record's
 * position, so that a proof about one column (the ids, say) never has to expand the long prompt
 * texts. The positions, in catalogue order, with the line of each record's `id` in
 * ai-prompt-library@github.com/data/defaultPrompts.js:
 *    0  default-code-review         line 6
 *    1  default-debug-helper        line 21
 *    2  default-code-documentation  line 36
 *    3  default-refactor-code       line 51
 *    4  default-unit-tests          line 66
 *    5  default-content-writer      line 83
 *    6  default-email-composer      line 98
 *    7  default-grammar-check       line 113
 *    8  default-data-analysis       line 130
 *    9  default-research-assistant  line 145
 *   10  default-summarizer          line 160
 *   11  default-brainstorming       line 177
 *   12  default-story-generator     line 192
 *   13  default-business-plan       line 209
 *   14  default-meeting-agenda      line 224
 *   15  default-claude-analysis     line 241
 *   16  default-gemini-multimodal   line 258
 *
 * A falsy filter argument (`null`, `undefined` or the empty string) is the empty string here.
 */
module DefaultPrompts {
  import opened Wrappers
  import opened Seqs
  import opened PromptModel

  /** The number of built-in records. */
  const SeedCount := 17

  /** The `id` of each built-in record. */
  function SeedId(i: nat): string
    requires i < SeedCount
  {
    match i
    case 0 => "default-code-review"
    case 1 => "default-debug-helper"
    case 2 => "default-code-documentation"
    case 3 => "default-refactor-code"
    case 4 => "default-unit-tests"
    case 5 => "default-content-writer"
    case 6 => "default-email-composer"
    case 7 => "default-grammar-check"
    case 8 => "default-data-analysis"
    case 9 => "default-research-assistant"
    case 10 => "default-summarizer"
    case 11 => "default-brainstorming"
    case 12 => "default-story-generator"
    case 13 => "default-business-plan"
    case 14 => "default-meeting-agenda"
    case 15 => "default-claude-analysis"
    case 16 => "default-gemini-multimodal"
  }

  /** The `title` of each built-in record. */
  function SeedTitle(i: nat): string
    requires i < SeedCount
  {
    match i
    case 0 => "Code Review Assistant"
    case 1 => "Debug Helper"
    case 2 => "Code Documentation Generator"
    case 3 => "Code Refactoring Assistant"
    case 4 => "Unit Test Generator"
    case 5 => "Content Writing Assistant"
    case 6 => "Professional Email Composer"
    case 7 => "Grammar and Style Checker"
    case 8 => "Data Analysis Assistant"
    case 9 => "Research Assistant"
    case 10 => "Content Summarizer"
    case 11 => "Creative Brainstorming"
    case 12 => "Creative Story Generator"
    case 13 => "Business Plan Assistant"
    case 14 => "Meeting Agenda Creator"
    case 15 => "Claude Deep Analysis"
    case 16 => "Gemini Multimodal Analysis"
  }

  /** The `description` of each built-in record. */
  function SeedDescription(i: nat): string
    requires i < SeedCount
  {
    match i
    case 0 => "Comprehensive code review with suggestions for improvement"
    case 1 => "Systematic debugging approach for code issues"
    case 2 => "Generate comprehensive documentation for code"
    case 3 => "Refactor code for better structure and maintainability"
    case 4 => "Generate comprehensive unit tests for code"
    case 5 => "Professional content creation with specific tone and style"
    case 6 => "Compose professional emails for various purposes"
    case 7 => "Improve grammar, style, and clarity of writing"
    case 8 => "Analyze data patterns, trends, and insights"
    case 9 => "Comprehensive research and information gathering"
    case 10 => "Create concise summaries of complex content"
    case 11 => "Generate innovative ideas and creative solutions"
    case 12 => "Generate engaging stories with specific elements"
    case 13 => "Create comprehensive business plan sections"
    case 14 => "Create structured and effective meeting agendas"
    case 15 => "Leverage Claude's analytical strengths for complex problems"
    case 16 => "Analyze multiple types of content with Gemini's capabilities"
  }

  /** The `category` of each built-in record. */
  function SeedCategory(i: nat): Category
    requires i < SeedCount
  {
    match i
    case 0 => Category("ChatGPT", "Coding")
    case 1 => Category("ChatGPT", "Coding")
    case 2 => Category("ChatGPT", "Coding")
    case 3 => Category("ChatGPT", "Coding")
    case 4 => Category("ChatGPT", "Coding")
    case 5 => Category("ChatGPT", "Writing")
    case 6 => Category("ChatGPT", "Writing")
    case 7 => Category("ChatGPT", "Writing")
    case 8 => Category("ChatGPT", "Analysis")
    case 9 => Category("ChatGPT", "Analysis")
    case 10 => Category("ChatGPT", "Analysis")
    case 11 => Category("ChatGPT", "Creative")
    case 12 => Category("ChatGPT", "Creative")
    case 13 => Category("ChatGPT", "Business")
    case 14 => Category("ChatGPT", "Business")
    case 15 => Category("Claude", "Analysis")
    case 16 => Category("Gemini", "Analysis")
  }

  /** The `tags` of each built-in record. */
  function SeedTags(i: nat): seq<string>
    requires i < SeedCount
  {
    match i
    case 0 => ["code-review", "debugging", "best-practices"]
    case 1 => ["debugging", "troubleshooting", "error-fixing"]
    case 2 => ["documentation", "comments", "api-docs"]
    case 3 => ["refactoring", "code-improvement", "clean-code"]
    case 4 => ["unit-tests", "testing", "quality-assurance"]
    case 5 => ["content-creation", "copywriting", "marketing"]
    case 6 => ["email", "business-communication", "professional"]
    case 7 => ["grammar", "editing", "proofreading"]
    case 8 => ["data-analysis", "statistics", "insights"]
    case 9 => ["research", "information-gathering", "analysis"]
    case 10 => ["summarization", "content-analysis", "executive-summary"]
    case 11 => ["brainstorming", "ideation", "creativity"]
    case 12 => ["storytelling", "creative-writing", "narrative"]
    case 13 => ["business-plan", "strategy", "entrepreneurship"]
    case 14 => ["meetings", "agenda", "productivity"]
    case 15 => ["complex-analysis", "decision-making", "strategic-thinking"]
    case 16 => ["multimodal", "comprehensive-analysis", "pattern-recognition"]
  }

  /** The `content` (the prompt template) of each built-in record. */
  function SeedContent(i: nat): string
    requires i < SeedCount
  {
    match i
    case 0 => "Please review the following code for:\n\n1. Code quality and best practices\n2. Security vulnerabilities\n3. Performance optimizations\n4. Readability and maintainability\n5. Potential bugs or edge cases\n\nProvide specific suggestions for improvement:\n\n```\n[INSERT CODE HERE]\n```"
    case 1 => "I'm experiencing an issue with my code. Help me debug it systematically:\n\n**Problem description:**\n[Describe the issue]\n\n**Expected behavior:**\n[What should happen]\n\n**Actual behavior:**\n[What is happening]\n\n**Code:**\n```\n[INSERT CODE HERE]\n```\n\n**Error messages (if any):**\n[Insert error messages]\n\nPlease provide a step-by-step debugging approach and potential solutions."
    case 2 => "Generate comprehensive documentation for the following code. Include:\n\n1. Function/class description\n2. Parameter explanations\n3. Return value description\n4. Usage examples\n5. Any important notes or caveats\n\nUse appropriate documentation format for the language:\n\n```\n[INSERT CODE HERE]\n```"
    case 3 => "Please refactor the following code to improve:\n\n1. Code structure and organization\n2. Readability and clarity\n3. Performance and efficiency\n4. Adherence to design patterns\n5. Maintainability\n\nProvide the refactored code with explanations for the changes:\n\n```\n[INSERT CODE HERE]\n```\n\nLanguage: [SPECIFY LANGUAGE]\nSpecific focus areas: [OPTIONAL - SPECIFY AREAS TO FOCUS ON]"
    case 4 => "Generate comprehensive unit tests for the following code. Include:\n\n1. Test cases for normal scenarios\n2. Edge cases and boundary conditions\n3. Error handling tests\n4. Mock objects where necessary\n5. Clear test descriptions\n\nUse appropriate testing framework for the language:\n\n```\n[INSERT CODE HERE]\n```\n\nTesting framework: [SPECIFY FRAMEWORK IF PREFERRED]\nLanguage: [SPECIFY LANGUAGE]"
    case 5 => "Create engaging content on the following topic:\n\n**Topic:** [INSERT TOPIC]\n\n**Target audience:** [DESCRIBE AUDIENCE]\n\n**Tone:** [Professional/Casual/Friendly/Authoritative/etc.]\n\n**Length:** [SPECIFY WORD COUNT OR LENGTH]\n\n**Key points to cover:**\n- [Point 1]\n- [Point 2]\n- [Point 3]\n\n**Call to action:** [SPECIFY DESIRED ACTION]\n\nPlease ensure the content is:\n- Engaging and well-structured\n- SEO-friendly with relevant keywords\n- Appropriate for the target audience\n- Includes compelling headlines/subheadings"
    case 6 => "Compose a professional email with the following details:\n\n**Purpose:** [INSERT PURPOSE - e.g., follow-up, proposal, request, etc.]\n\n**Recipient:** [DESCRIBE RECIPIENT - title, relationship, etc.]\n\n**Key message:** [MAIN POINT TO COMMUNICATE]\n\n**Tone:** [Professional/Formal/Friendly/Urgent/etc.]\n\n**Desired outcome:** [WHAT DO YOU WANT TO ACHIEVE]\n\n**Additional context:** [ANY RELEVANT BACKGROUND INFORMATION]\n\nPlease include:\n- Appropriate subject line\n- Professional greeting\n- Clear and concise body\n- Appropriate closing\n- Call to action if needed"
    case 7 => "Please review and improve the following text for:\n\n1. Grammar and spelling errors\n2. Sentence structure and clarity\n3. Word choice and vocabulary\n4. Overall flow and readability\n5. Consistency in tone and style\n\nProvide the corrected version and explain the key changes made:\n\n**Original text:**\n[INSERT TEXT HERE]\n\n**Target audience:** [SPECIFY IF RELEVANT]\n**Desired tone:** [SPECIFY IF RELEVANT]"
    case 8 => "Analyze the following data and provide insights:\n\n**Data type:** [DESCRIBE TYPE OF DATA]\n\n**Data:**\n[INSERT DATA OR DESCRIBE DATA SOURCE]\n\n**Analysis objectives:**\n- [What patterns to look for]\n- [What questions to answer]\n- [What insights to derive]\n\n**Context:** [PROVIDE RELEVANT BACKGROUND]\n\nPlease provide:\n1. Key findings and patterns\n2. Statistical insights (if applicable)\n3. Trends and correlations\n4. Actionable recommendations\n5. Visualizations suggestions\n6. Potential limitations or considerations"
    case 9 => "Help me research the following topic comprehensively:\n\n**Research topic:** [INSERT TOPIC]\n\n**Research scope:** [SPECIFIC ASPECTS TO FOCUS ON]\n\n**Target depth:** [Surface-level/Moderate/In-depth]\n\n**Intended use:** [PURPOSE OF RESEARCH]\n\n**Preferred sources:** [ACADEMIC/NEWS/INDUSTRY/MIXED]\n\nPlease provide:\n1. Overview of the topic\n2. Key concepts and definitions\n3. Current trends and developments\n4. Different perspectives or viewpoints\n5. Relevant statistics or data\n6. Credible sources and references\n7. Areas for further investigation"
    case 10 => "Summarize the following content:\n\n**Content to summarize:**\n[INSERT CONTENT HERE]\n\n**Summary length:** [SHORT/MEDIUM/DETAILED]\n\n**Target audience:** [WHO WILL READ THE SUMMARY]\n\n**Focus areas:** [SPECIFIC ASPECTS TO EMPHASIZE]\n\nPlease provide:\n1. Executive summary (key points)\n2. Main arguments or findings\n3. Important details and supporting evidence\n4. Conclusions or implications\n5. Action items (if applicable)\n\nFormat the summary with clear headings and bullet points for easy reading."
    case 11 => "Help me brainstorm creative ideas for:\n\n**Challenge/Project:** [DESCRIBE THE CHALLENGE]\n\n**Constraints:** [ANY LIMITATIONS OR REQUIREMENTS]\n\n**Target outcome:** [WHAT SUCCESS LOOKS LIKE]\n\n**Resources available:** [BUDGET, TIME, PEOPLE, ETC.]\n\n**Inspiration sources:** [EXISTING EXAMPLES OR PREFERENCES]\n\nPlease generate:\n1. 10-15 diverse creative ideas\n2. Explanation for each idea\n3. Pros and cons analysis\n4. Implementation complexity rating\n5. Most promising ideas with detailed development\n6. Next steps for the top 3 ideas\n\nThink outside the box and consider unconventional approaches!"
    case 12 => "Create an engaging story with the following elements:\n\n**Genre:** [SPECIFY GENRE]\n\n**Setting:** [TIME AND PLACE]\n\n**Main character:** [DESCRIBE PROTAGONIST]\n\n**Conflict/Challenge:** [CENTRAL PROBLEM]\n\n**Tone:** [SERIOUS/HUMOROUS/MYSTERIOUS/ETC.]\n\n**Length:** [SHORT/MEDIUM/LONG]\n\n**Special elements to include:**\n- [Element 1]\n- [Element 2]\n- [Element 3]\n\n**Target audience:** [WHO WILL READ THIS]\n\nPlease create a compelling narrative with:\n- Strong character development\n- Engaging plot progression\n- Vivid descriptions\n- Satisfying resolution\n- Appropriate pacing for the length"
    case 13 => "Help me develop a business plan section for:\n\n**Business concept:** [DESCRIBE YOUR BUSINESS IDEA]\n\n**Industry:** [SPECIFY INDUSTRY]\n\n**Target market:** [DESCRIBE YOUR CUSTOMERS]\n\n**Section focus:** [WHICH SECTION TO DEVELOP]\n\n**Stage:** [STARTUP/EXPANSION/EXISTING BUSINESS]\n\nPlease create a detailed section covering:\n1. Market analysis and opportunity\n2. Competitive landscape\n3. Business model and revenue streams\n4. Marketing and sales strategy\n5. Operations plan\n6. Financial projections overview\n7. Risk assessment\n8. Implementation timeline\n\nInclude specific, actionable details and realistic assumptions."
    case 14 => "Create a comprehensive meeting agenda for:\n\n**Meeting purpose:** [MAIN OBJECTIVE]\n\n**Meeting type:** [TEAM MEETING/PROJECT REVIEW/PLANNING/ETC.]\n\n**Duration:** [PLANNED LENGTH]\n\n**Attendees:** [NUMBER AND ROLES OF PARTICIPANTS]\n\n**Key topics to cover:**\n- [Topic 1]\n- [Topic 2]\n- [Topic 3]\n\n**Decisions needed:** [WHAT NEEDS TO BE DECIDED]\n\n**Background context:** [RELEVANT INFORMATION]\n\nPlease create an agenda with:\n1. Clear objective statement\n2. Time allocations for each item\n3. Discussion leaders for each topic\n4. Expected outcomes\n5. Action items template\n6. Next steps planning\n7. Pre-meeting preparation requirements"
    case 15 => "I need you to analyze this complex situation using your analytical capabilities:\n\n**Situation:** [DESCRIBE THE COMPLEX SITUATION]\n\n**Stakeholders involved:** [LIST KEY PARTIES]\n\n**Available information:** [WHAT DATA/FACTS YOU HAVE]\n\n**Missing information:** [WHAT YOU DON'T KNOW]\n\n**Decision timeframe:** [URGENCY LEVEL]\n\n**Constraints:** [LIMITATIONS OR REQUIREMENTS]\n\nPlease provide:\n1. Structured analysis of the situation\n2. Multiple perspectives and viewpoints\n3. Potential risks and opportunities\n4. Decision framework recommendation\n5. Sensitivity analysis for key variables\n6. Recommended next steps\n7. Potential unintended consequences\n\nBe thorough and consider second and third-order effects."
    case 16 => "Analyze the following content using multimodal understanding:\n\n**Content type:** [TEXT/IMAGE/VIDEO/MIXED]\n\n**Analysis goal:** [WHAT YOU WANT TO UNDERSTAND]\n\n**Context:** [RELEVANT BACKGROUND]\n\n**Content:**\n[INSERT OR DESCRIBE CONTENT]\n\n**Specific questions:**\n- [Question 1]\n- [Question 2]\n- [Question 3]\n\nPlease provide:\n1. Comprehensive content analysis\n2. Cross-modal connections and patterns\n3. Contextual interpretation\n4. Insights not immediately obvious\n5. Implications and applications\n6. Recommendations based on analysis\n\nConsider both explicit and implicit information."
  }

  /** The built-in record at position `i`: not custom, never used, created and modified `now`. */
  function Seed(i: nat, now: int): Prompt
    requires i < SeedCount
  {
    Prompt(SeedId(i), SeedTitle(i), SeedDescription(i), SeedContent(i), SeedCategory(i),
           SeedTags(i), false, now, now, 0, None)
  }

  /** The id column in catalogue order. */
  function SeedIds(): seq<string> {
    seq(SeedCount, i requires 0 <= i < SeedCount => SeedId(i))
  }

  /** No two built-in records share an id. */
  lemma SeedIdsDistinct()
    ensures Distinct(SeedIds())
  {
  }

  /** `DefaultPrompts.getAll()`: seventeen built-in, unused records with pairwise distinct ids. */
  function GetAll(now: int): (r: seq<Prompt>)
    ensures |r| == SeedCount
    ensures forall p :: p in r ==> !p.isCustom && p.usageCount == 0 && p.lastUsed == None
    ensures forall p :: p in r ==> p.dateCreated == now && p.dateModified == now
    ensures Ids(r) == SeedIds() && Distinct(Ids(r))
  {
    SeedIdsDistinct();
    seq(SeedCount, i requires 0 <= i < SeedCount => Seed(i, now))
  }

  /** The test `getByCategory` applies: each truthy argument must match exactly. */
  predicate InCategory(p: Prompt, aiModel: string, application: string) {
    (aiModel == "" || p.category.aiModel == aiModel) &&
    (application == "" || p.category.application == application)
  }

  /** `DefaultPrompts.getByCategory(aiModel, application)`. */
  function GetByCategory(aiModel: string, application: string, now: int): (r: seq<Prompt>)
    ensures forall p :: p in r ==> p in GetAll(now)
    ensures forall p :: p in r ==> (aiModel != "" ==> p.category.aiModel == aiModel)
    ensures forall p :: p in r ==> (application != "" ==> p.category.application == application)
    ensures forall p :: p in GetAll(now) && InCategory(p, aiModel, application) ==> p in r
    ensures IsSubsequence(r, GetAll(now))
  {
    Filter(GetAll(now), p => InCategory(p, aiModel, application))
  }

  /** `DefaultPrompts.getByAIModel(aiModel)`: a strict comparison, so a falsy argument matches nothing. */
  function GetByAIModel(aiModel: string, now: int): (r: seq<Prompt>)
    ensures forall p :: p in r <==> p in GetAll(now) && p.category.aiModel == aiModel
    ensures IsSubsequence(r, GetAll(now))
  {
    Filter(GetAll(now), (p: Prompt) => p.category.aiModel == aiModel)
  }

  /** `DefaultPrompts.getByApplication(application)`. */
  function GetByApplication(application: string, now: int): (r: seq<Prompt>)
    ensures forall p :: p in r <==> p in GetAll(now) && p.category.application == application
    ensures IsSubsequence(r, GetAll(now))
  {
    Filter(GetAll(now), (p: Prompt) => p.category.application == application)
  }

  /** With both arguments falsy, `getByCategory` keeps the whole catalogue, in order. */
  lemma GetByCategoryUnfiltered(now: int)
    ensures GetByCategory("", "", now) == GetAll(now)
  {
    FilterAll(GetAll(now), p => InCategory(p, "", ""));
  }

  /** For a truthy model, `getByAIModel(m)` is `getByCategory(m, null)`. */
  lemma GetByAIModelIsCategory(aiModel: string, now: int)
    requires aiModel != ""
    ensures GetByAIModel(aiModel, now) == GetByCategory(aiModel, "", now)
  {
    FilterAgree(GetAll(now), (p: Prompt) => p.category.aiModel == aiModel, p => InCategory(p, aiModel, ""));
  }

  /** For a truthy application, `getByApplication(a)` is `getByCategory(null, a)`. */
  lemma GetByApplicationIsCategory(application: string, now: int)
    requires application != ""
    ensures GetByApplication(application, now) == GetByCategory("", application, now)
  {
    FilterAgree(GetAll(now), (p: Prompt) => p.category.application == application, p => InCategory(p, "", application));
  }
}
