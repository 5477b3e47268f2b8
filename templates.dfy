/**
 * The fixed and flag-selected texts of the generated Python modules,
 * `README.md` and the HTML pages (`_manage`, `_readme`, `_urls`, `_wsgi`,
 * `_models`, `_admin`, `_views`, the five page templates, `_migration`,
 * `_api_urls`, `_serializers`, `_api_views`). Texts that interpolate the
 * project name or a flag are assembled from their pieces, so that what they
 * mention can be stated; the rest are constants.
 */
module Templates {
  import opened Configuration
  import opened Text

  /** The statement `manage.py` and `wsgi.py` use to name the settings module. */
  function SettingsModuleDefault(name: string): string
  {
    "os.environ.setdefault('DJANGO_SETTINGS_MODULE', '" + name + ".settings')"
  }
  const ManageHead := @"#!/usr/bin/env python
""""""Django's command-line utility for administrative tasks.""""""
import os
import sys
if __name__ == '__main__':
    """"""Run administrative tasks.""""""
    "
  const ManageTail := @"
    try:
        from django.core.management import execute_from_command_line
    except ImportError as exc:
        raise ImportError(
            ""Couldn't import Django. Are you sure it's installed and ""
            ""available on your PYTHONPATH environment variable? Did you ""
            ""forget to activate a virtual environment?""
        ) from exc
    execute_from_command_line(sys.argv)
"
  /** `manage.py`: the template with the project name put in by `str.format`. */
  function ManageText(name: string): string
  {
    ManageHead + SettingsModuleDefault(name) + ManageTail
  }

  const WsgiHead := "import os\nfrom django.core.wsgi import get_wsgi_application\n"
  const WsgiTail := "\napplication = get_wsgi_application()\n"

  /** `<name>/wsgi.py` */
  function WsgiText(name: string): string
  {
    WsgiHead + SettingsModuleDefault(name) + WsgiTail
  }

  const ReadmeBody := @"
Django项目，包含用户认证系统。
## 功能特性
- 用户注册/登录/登出
- 用户资料管理
- 响应式设计
- 管理后台
## 快速开始
1. 安装依赖：
```bash
pip install -r requirements.txt
```
2. 数据库迁移：
```bash
python manage.py migrate
```
3. 创建超级用户：
```bash
python manage.py createsuperuser
```
4. 运行开发服务器：
```bash
python manage.py runserver
```
访问 http://127.0.0.1:8000 查看网站。
"

  /** `README.md`: a title line with the project name, then fixed Chinese text whatever the language option. */
  function ReadmeText(name: string, lang: Language): string
  {
    "# " + name + ReadmeBody
  }

  const RootUrlsText := @"from django.contrib import admin
from django.urls import path, include
urlpatterns = [
    path('admin/', admin.site.urls),
    path('', include('main.urls')),
]"

  const ViewsText := @"from django.shortcuts import render, redirect
from django.contrib.auth import login, authenticate
from django.contrib.auth.decorators import login_required
from django.contrib.auth.forms import UserCreationForm
from django.contrib import messages
def home(request):
    return render(request, 'main/home.html')
def register_view(request):
    if request.method == 'POST':
        form = UserCreationForm(request.POST)
        if form.is_valid():
            user = form.save()
            username = form.cleaned_data.get('username')
            messages.success(request, f'账户创建成功，欢迎 {username}!')
            return redirect('login')
    else:
        form = UserCreationForm()
    return render(request, 'main/register.html', {'form': form})
@login_required
def profile_view(request):
    return render(request, 'main/profile.html')
"

  const AppUrlsText := @"from django.urls import path
from django.contrib.auth import views as auth_views
from . import views
urlpatterns = [
    path('', views.home, name='home'),
    path('login/', auth_views.LoginView.as_view(template_name='main/login.html'), name='login'),
    path('logout/', auth_views.LogoutView.as_view(), name='logout'),
    path('register/', views.register_view, name='register'),
    path('profile/', views.profile_view, name='profile'),
]"

  /** The fields the custom user adds to `AbstractUser`, in declaration order. */
  const ExtraUserFields: seq<string> := ["bio", "birth_date", "phone", "address", "role"]

  /** The model field of each extra user field, index for index. */
  const ExtraFieldTypes: seq<string> := [
    "models.TextField(max_length=500, blank=True)",
    "models.DateField(null=True, blank=True)",
    "models.CharField(max_length=20, blank=True)",
    "models.TextField(max_length=300, blank=True)",
    "models.CharField(max_length=20, default='user')"]

  /** The first line of the custom user model, which imports the class it extends. */
  const AbstractUserImport := "from django.contrib.auth.models import AbstractUser\n"
  const CustomUserHead := AbstractUserImport + "from django.db import models\n" + "class CustomUser(AbstractUser):\n"

  const PlainModelsText := "from django.db import models\n" + "\n" + "# Create your models here.\n"

  /** The second line of the custom user admin, which imports the admin class it extends. */
  const UserAdminImport := "from django.contrib.auth.admin import UserAdmin\n"
  const CustomUserAdminClass := "from .models import CustomUser\n" + "@admin.register(CustomUser)\n"
    + "class CustomUserAdmin(UserAdmin):\n" + "    fieldsets = UserAdmin.fieldsets + (\n" + "        "
  const CustomUserAdminHead := "from django.contrib import admin\n" + UserAdminImport + CustomUserAdminClass
  const CustomUserAdminMiddle := @"
    )
    add_fieldsets = UserAdmin.add_fieldsets + (
        "
  const CustomUserAdminTail := "\n    )\n"
  const PlainAdminText := "from django.contrib import admin\n" + "\n" + "# Register your models here.\n"

  const CustomUserSerializerImports := @"from rest_framework import serializers
from django.contrib.auth import get_user_model
User = get_user_model()
"
  const PlainSerializerImports := "from rest_framework import serializers\n"
    + "from django.contrib.auth.models import User\n"
  const SerializerClassLine := "class UserSerializer(" + "serializers.ModelSerializer):\n"
  const SerializerMeta := SerializerClassLine + "    class Meta:\n" + "        model = User\n" + "        fields = "
  /** The fields the serializer only reads. */
  const ReadOnlyFields: seq<string> := ["id"]
  const ReadOnlyLead := "\n        read_only_fields = "
  const SerializerTail := ReadOnlyLead + PyList(ReadOnlyFields) + "\n"

  const MigrationHead := @"# Generated migration for custom user model
from django.db import migrations, models
import django.contrib.auth.models
class Migration(migrations.Migration):
    initial = True
    dependencies = [
        ('auth', '0012_alter_user_first_name_max_length'),
    ]
    operations = [
        migrations.CreateModel(
            name='CustomUser',
            fields=[
"

  /** The columns of the initial migration: Django's user columns, then the extra fields. */
  const BaseColumns: seq<Column> := [
    Column("id", "models.BigAutoField(auto_created=True, primary_key=True, serialize=False, verbose_name='ID')"),
    Column("password", "models.CharField(max_length=128, verbose_name='password')"),
    Column("last_login", "models.DateTimeField(blank=True, null=True, verbose_name='last login')"),
    Column("is_superuser", "models.BooleanField(default=False)"),
    Column("username", "models.CharField(max_length=150, unique=True)"),
    Column("first_name", "models.CharField(blank=True, max_length=150)"),
    Column("last_name", "models.CharField(blank=True, max_length=150)"),
    Column("email", "models.EmailField(blank=True, max_length=254)"),
    Column("is_staff", "models.BooleanField(default=False)"),
    Column("is_active", "models.BooleanField(default=True)"),
    Column("date_joined", "models.DateTimeField(auto_now_add=True)")]

  const ExtraColumnTypes: seq<string> := [
    "models.TextField(blank=True, max_length=500)",
    "models.DateField(blank=True, null=True)",
    "models.CharField(blank=True, max_length=20)",
    "models.TextField(blank=True, max_length=300)",
    "models.CharField(default='user', max_length=20)"]

  const MigrationTail := @"            ],
            options={
                'verbose_name': 'user',
                'verbose_name_plural': 'users',
            },
            managers=[
                ('objects', django.contrib.auth.models.UserManager()),
            ],
        ),
    ]
"

  const BaseTemplate := @"<!DOCTYPE html>
<html lang=""zh-CN"">
<head>
    <meta charset=""UTF-8"">
    <meta name=""viewport"" content=""width=device-width, initial-scale=1.0"">
    <title>{% block title %}Django用户系统{% endblock %}</title>
    <link href=""https://cdn.jsdelivr.net/npm/bootstrap@5.1.3/dist/css/bootstrap.min.css"" rel=""stylesheet"">
</head>
<body>
    <nav class=""navbar navbar-expand-lg navbar-dark bg-dark"">
        <div class=""container"">
            <a class=""navbar-brand"" href=""{% url 'home' %}"">Django用户系统</a>
            <div class=""navbar-nav ms-auto"">
                {% if user.is_authenticated %}
                    <a class=""nav-link"" href=""{% url 'profile' %}"">个人资料</a>
                    <a class=""nav-link"" href=""{% url 'logout' %}"">退出</a>
                {% else %}
                    <a class=""nav-link"" href=""{% url 'login' %}"">登录</a>
                    <a class=""nav-link"" href=""{% url 'register' %}"">注册</a>
                {% endif %}
            </div>
        </div>
    </nav>
    <div class=""container mt-4"">
        {% if messages %}
            {% for message in messages %}
                <div class=""alert alert-{{ message.tags }} alert-dismissible fade show"" role=""alert"">
                    {{ message }}
                    <button type=""button"" class=""btn-close"" data-bs-dismiss=""alert""></button>
                </div>
            {% endfor %}
        {% endif %}
        {% block content %}
        {% endblock %}
    </div>
    <script src=""https://cdn.jsdelivr.net/npm/bootstrap@5.1.3/dist/js/bootstrap.bundle.min.js""></script>
</body>
</html>"

  const HomeTemplate := @"{% extends 'main/base.html' %}
{% block content %}
<div class=""row"">
    <div class=""col-md-8 mx-auto"">
        <div class=""jumbotron"">
            <h1 class=""display-4"">欢迎来到Django用户系统!</h1>
            <p class=""lead"">这是一个完整的用户认证系统示例。</p>
            {% if user.is_authenticated %}
                <p>你好, {{ user.username }}!</p>
                <a class=""btn btn-primary btn-lg"" href=""{% url 'profile' %}"">查看个人资料</a>
            {% else %}
                <p>请登录或注册账户。</p>
                <a class=""btn btn-primary btn-lg"" href=""{% url 'register' %}"">立即注册</a>
                <a class=""btn btn-outline-primary btn-lg"" href=""{% url 'login' %}"">登录</a>
            {% endif %}
        </div>
    </div>
</div>
{% endblock %}"

  const LoginTemplate := @"{% extends 'main/base.html' %}
{% block title %}登录{% endblock %}
{% block content %}
<div class=""row"">
    <div class=""col-md-6 mx-auto"">
        <div class=""card"">
            <div class=""card-header"">
                <h3>登录</h3>
            </div>
            <div class=""card-body"">
                <form method=""post"">
                    {% csrf_token %}
                    <div class=""mb-3"">
                        <label for=""{{ form.username.id_for_label }}"" class=""form-label"">用户名</label>
                        {{ form.username }}
                    </div>
                    <div class=""mb-3"">
                        <label for=""{{ form.password.id_for_label }}"" class=""form-label"">密码</label>
                        {{ form.password }}
                    </div>
                    <button type=""submit"" class=""btn btn-primary"">登录</button>
                    <a href=""{% url 'register' %}"" class=""btn btn-link"">还没有账户？注册</a>
                </form>
            </div>
        </div>
    </div>
</div>
{% endblock %}"

  const RegisterTemplate := @"{% extends 'main/base.html' %}
{% block title %}注册{% endblock %}
{% block content %}
<div class=""row"">
    <div class=""col-md-6 mx-auto"">
        <div class=""card"">
            <div class=""card-header"">
                <h3>注册</h3>
            </div>
            <div class=""card-body"">
                <form method=""post"">
                    {% csrf_token %}
                    <div class=""mb-3"">
                        <label for=""{{ form.username.id_for_label }}"" class=""form-label"">用户名</label>
                        {{ form.username }}
                        {% if form.username.help_text %}
                            <div class=""form-text"">{{ form.username.help_text }}</div>
                        {% endif %}
                    </div>
                    <div class=""mb-3"">
                        <label for=""{{ form.password1.id_for_label }}"" class=""form-label"">密码</label>
                        {{ form.password1 }}
                        {% if form.password1.help_text %}
                            <div class=""form-text"">{{ form.password1.help_text }}</div>
                        {% endif %}
                    </div>
                    <div class=""mb-3"">
                        <label for=""{{ form.password2.id_for_label }}"" class=""form-label"">确认密码</label>
                        {{ form.password2 }}
                    </div>
                    <button type=""submit"" class=""btn btn-primary"">注册</button>
                    <a href=""{% url 'login' %}"" class=""btn btn-link"">已有账户？登录</a>
                </form>
            </div>
        </div>
    </div>
</div>
{% endblock %}"

  const ProfileTemplate := @"{% extends 'main/base.html' %}
{% block title %}个人资料{% endblock %}
{% block content %}
<div class=""row"">
    <div class=""col-md-8 mx-auto"">
        <div class=""card"">
            <div class=""card-header"">
                <h3>个人资料</h3>
            </div>
            <div class=""card-body"">
                <table class=""table"">
                    <tr>
                        <th>用户名:</th>
                        <td>{{ user.username }}</td>
                    </tr>
                    <tr>
                        <th>邮箱:</th>
                        <td>{{ user.email|default:""未设置"" }}</td>
                    </tr>
                    <tr>
                        <th>姓名:</th>
                        <td>{{ user.get_full_name|default:""未设置"" }}</td>
                    </tr>
                    <tr>
                        <th>注册时间:</th>
                        <td>{{ user.date_joined }}</td>
                    </tr>
                    <tr>
                        <th>最后登录:</th>
                        <td>{{ user.last_login }}</td>
                    </tr>
                </table>
            </div>
        </div>
    </div>
</div>
{% endblock %}"

  const ApiUrlsText := @"from django.urls import path, include
from rest_framework.routers import DefaultRouter
from . import views
router = DefaultRouter()
router.register(r'users', views.UserViewSet)
urlpatterns = [
    path('api/', include(router.urls)),
    path('api/auth/', include('djoser.urls')),
]"

  const ApiViewsText := @"from rest_framework import viewsets, permissions
from django.contrib.auth import get_user_model
from .serializers import UserSerializer
User = get_user_model()
class UserViewSet(viewsets.ModelViewSet):
    queryset = User.objects.all()
    serializer_class = UserSerializer
    permission_classes = [permissions.IsAuthenticated]
    def get_queryset(self):
        if self.request.user.is_staff:
            return User.objects.all()
        return User.objects.filter(id=self.request.user.id)
"

  /** A column of the initial migration: its name and its field. */
  datatype Column = Column(name: string, field: string)

  /** The class-body line that declares an extra user field. */
  function FieldDeclaration(i: nat): string
    requires i < |ExtraUserFields|
  {
    "    " + ExtraUserFields[i] + " = " + ExtraFieldTypes[i] + "\n"
  }

  function FieldDeclarations(): seq<string>
  {
    seq(|ExtraUserFields|, i requires 0 <= i < |ExtraUserFields| => FieldDeclaration(i))
  }

  /** `main/models.py`: the custom user model with its extra fields, or the empty stub. */
  function ModelsText(user: bool): string
  {
    if user then CustomUserHead + Concat(FieldDeclarations()) else PlainModelsText
  }

  /** The fieldset both admin forms gain for the extra fields. */
  function AdminFieldset(): string
  {
    "('Additional Info', {'fields': " + PyTuple(ExtraUserFields) + "}),"
  }

  /** `main/admin.py`: the custom user admin, or the empty stub. */
  function AdminText(user: bool): string
  {
    if user then
      CustomUserAdminHead + AdminFieldset() + CustomUserAdminMiddle + AdminFieldset() + CustomUserAdminTail
    else
      PlainAdminText
  }

  /** The fields the user serializer exposes. */
  function SerializedFields(user: bool): seq<string>
  {
    ["id", "username", "email"] + (if user then ExtraUserFields else ["first_name", "last_name"])
  }

  /** `main/api/serializers.py`: over `get_user_model()` with the custom user, over `User` otherwise. */
  function SerializersText(user: bool): string
  {
    (if user then CustomUserSerializerImports else PlainSerializerImports)
    + SerializerMeta + PyList(SerializedFields(user)) + SerializerTail
  }

  function ExtraColumns(): seq<Column>
  {
    seq(|ExtraUserFields|, i requires 0 <= i < |ExtraUserFields| => Column(ExtraUserFields[i], ExtraColumnTypes[i]))
  }

  function MigrationColumns(): seq<Column>
  {
    BaseColumns + ExtraColumns()
  }

  const ColumnIndent := "                "

  /** How a column line opens: `('<name>', `. */
  function ColumnKey(name: string): string
  {
    "('" + name + "', "
  }

  function ColumnLine(c: Column): string
  {
    ColumnIndent + ColumnKey(c.name) + c.field + "),\n"
  }

  function ColumnLines(cols: seq<Column>): seq<string>
  {
    seq(|cols|, i requires 0 <= i < |cols| => ColumnLine(cols[i]))
  }

  /** `main/migrations/0001_initial.py`: creates `CustomUser` with every column. */
  function MigrationText(): string
  {
    MigrationHead + Concat(ColumnLines(MigrationColumns())) + MigrationTail
  }

  /** `manage.py` and `wsgi.py` both point Django at `<name>.settings`. */
  lemma EntryPointsNameSettings(name: string)
    ensures Contains(ManageText(name), SettingsModuleDefault(name))
    ensures Contains(WsgiText(name), SettingsModuleDefault(name))
  {
    ContainsInfix(ManageHead, SettingsModuleDefault(name), ManageTail);
    ContainsInfix(WsgiHead, SettingsModuleDefault(name), WsgiTail);
  }

  /** Different project names give different entry points: the name is recoverable from each text. */
  lemma EntryPointsDetermineName(a: string, b: string)
    ensures ManageText(a) == ManageText(b) ==> a == b
    ensures WsgiText(a) == WsgiText(b) ==> a == b
    ensures ReadmeText(a, Zh) == ReadmeText(b, En) ==> a == b
  {
    if ManageText(a) == ManageText(b) {
      InfixDetermined(ManageHead, SettingsModuleDefault(a), SettingsModuleDefault(b), ManageTail);
    }
    if WsgiText(a) == WsgiText(b) {
      InfixDetermined(WsgiHead, SettingsModuleDefault(a), SettingsModuleDefault(b), WsgiTail);
    }
    if SettingsModuleDefault(a) == SettingsModuleDefault(b) {
      InfixDetermined("os.environ.setdefault('DJANGO_SETTINGS_MODULE', '", a, b, ".settings')");
    }
    if ReadmeText(a, Zh) == ReadmeText(b, En) {
      InfixDetermined("# ", a, b, ReadmeBody);
    }
  }

  /** The README's title is the project name, and the language option does not change the text. */
  lemma ReadmeIgnoresLanguage(name: string, lang: Language)
    ensures ReadmeText(name, lang) == ReadmeText(name, Zh)
    ensures ReadmeText(name, lang)[..|name| + 2] == "# " + name
  {
  }

  /** The custom user model declares each extra field. */
  lemma ModelsDeclareFields(i: nat)
    requires i < |ExtraUserFields|
    ensures Contains(ModelsText(true), "    " + ExtraUserFields[i] + " = ")
  {
    var decl := FieldDeclaration(i);
    ConcatContains(FieldDeclarations(), i);
    ContainsInSuffix(CustomUserHead, Concat(FieldDeclarations()), decl);
    ContainsHalves(ModelsText(true), "    " + ExtraUserFields[i] + " = " + ExtraFieldTypes[i], "\n");
    ContainsHalves(ModelsText(true), "    " + ExtraUserFields[i] + " = ", ExtraFieldTypes[i]);
  }

  /** The custom user admin shows each extra field. */
  lemma AdminShowsFields(i: nat)
    requires i < |ExtraUserFields|
    ensures Contains(AdminText(true), "'" + ExtraUserFields[i] + "'")
  {
    var quoted := Quoted(ExtraUserFields);
    JoinContains(quoted, ", ", i);
    ContainsInfix("(", Join(quoted, ", "), ")");
    ContainsTransitive(PyTuple(ExtraUserFields), Join(quoted, ", "), quoted[i]);
    ContainsInfix("('Additional Info', {'fields': ", PyTuple(ExtraUserFields), "}),");
    ContainsTransitive(AdminFieldset(), PyTuple(ExtraUserFields), quoted[i]);
    var text := AdminText(true);
    ContainsSelf(text);
    ContainsHalves(text, CustomUserAdminHead + AdminFieldset() + CustomUserAdminMiddle + AdminFieldset(),
                   CustomUserAdminTail);
    ContainsHalves(text, CustomUserAdminHead + AdminFieldset() + CustomUserAdminMiddle, AdminFieldset());
    ContainsTransitive(text, AdminFieldset(), quoted[i]);
  }

  lemma PlainModelsLacksCapitalA()
    ensures 'A' !in PlainModelsText
  {
  }

  lemma PlainModelsLacksEquals()
    ensures '=' !in PlainModelsText
  {
  }

  lemma PlainAdminLacksCapitalU()
    ensures 'U' !in PlainAdminText
  {
  }

  lemma PlainAdminLacksQuote()
    ensures '\'' !in PlainAdminText
  {
  }

  /** `models.py` extends `AbstractUser` and declares an extra field exactly when the custom user is on. */
  lemma ModelsTextFollowsUser(user: bool, i: nat)
    requires i < |ExtraUserFields|
    ensures Contains(ModelsText(user), "AbstractUser") <==> user
    ensures Contains(ModelsText(user), "    " + ExtraUserFields[i] + " = ") <==> user
  {
    if user {
      assert OccursAt(AbstractUserImport, "AbstractUser", 39);
      ContainsInPrefix(AbstractUserImport, "from django.db import models\n", "AbstractUser");
      ContainsInPrefix(AbstractUserImport + "from django.db import models\n", "class CustomUser(AbstractUser):\n", "AbstractUser");
      ContainsInPrefix(CustomUserHead, Concat(FieldDeclarations()), "AbstractUser");
      ModelsDeclareFields(i);
    } else {
      var decl := "    " + ExtraUserFields[i] + " = ";
      PlainModelsLacksCapitalA();
      MissingCharNotContained(PlainModelsText, "AbstractUser", 0);
      PlainModelsLacksEquals();
      assert decl[|ExtraUserFields[i]| + 5] == '=';
      MissingCharNotContained(PlainModelsText, decl, |ExtraUserFields[i]| + 5);
    }
  }

  lemma ImportNamesUserAdmin()
    ensures Contains(UserAdminImport, "UserAdmin")
  {
    assert OccursAt(UserAdminImport, "UserAdmin", 38);
  }

  lemma AdminHeadNamesUserAdmin()
    ensures Contains(CustomUserAdminHead, "UserAdmin")
  {
    var first := "from django.contrib import admin\n";
    ImportNamesUserAdmin();
    ContainsInSuffix(first, UserAdminImport, "UserAdmin");
    ContainsInPrefix(first + UserAdminImport, CustomUserAdminClass, "UserAdmin");
  }

  /** The custom user admin imports and extends `UserAdmin`. */
  lemma AdminNamesUserAdmin()
    ensures Contains(AdminText(true), "UserAdmin")
  {
    var fieldset := AdminFieldset();
    AdminHeadNamesUserAdmin();
    ContainsInPrefix(CustomUserAdminHead, fieldset, "UserAdmin");
    ContainsInPrefix(CustomUserAdminHead + fieldset, CustomUserAdminMiddle, "UserAdmin");
    ContainsInPrefix(CustomUserAdminHead + fieldset + CustomUserAdminMiddle, fieldset, "UserAdmin");
    ContainsInPrefix(CustomUserAdminHead + fieldset + CustomUserAdminMiddle + fieldset, CustomUserAdminTail, "UserAdmin");
  }

  /** `admin.py` registers a `UserAdmin` showing an extra field exactly when the custom user is on. */
  lemma AdminTextFollowsUser(user: bool, i: nat)
    requires i < |ExtraUserFields|
    ensures Contains(AdminText(user), "UserAdmin") <==> user
    ensures Contains(AdminText(user), "'" + ExtraUserFields[i] + "'") <==> user
  {
    if user {
      AdminNamesUserAdmin();
      AdminShowsFields(i);
    } else {
      PlainAdminLacksCapitalU();
      MissingCharNotContained(PlainAdminText, "UserAdmin", 0);
      PlainAdminLacksQuote();
      MissingCharNotContained(PlainAdminText, "'" + ExtraUserFields[i] + "'", 0);
    }
  }

  /** The serializer exposes an extra field exactly when the custom user is on. */
  lemma SerializedFieldsFollowUser(user: bool, i: nat)
    requires i < |ExtraUserFields|
    ensures ExtraUserFields[i] in SerializedFields(user) <==> user
    ensures Contains(SerializersText(user), "'" + ExtraUserFields[i] + "'") <==> user
  {
    if user {
      assert SerializedFields(true)[3 + i] == ExtraUserFields[i];
      SerializerListsFields(true, 3 + i);
    } else {
      PlainSerializerOmits(i);
    }
  }

  lemma SerializerImportsLackQuote()
    ensures '\'' !in PlainSerializerImports
  {
    RestFrameworkImportLacksQuote();
    UserImportLacksQuote();
    NotInEither('\'', "from rest_framework import serializers\n", "from django.contrib.auth.models import User\n");
  }

  lemma RestFrameworkImportLacksQuote()
    ensures '\'' !in "from rest_framework import serializers\n"
  {
  }

  lemma UserImportLacksQuote()
    ensures '\'' !in "from django.contrib.auth.models import User\n"
  {
  }

  lemma SerializerClassLineLacksQuote()
    ensures '\'' !in SerializerClassLine
  {
    NotInEither('\'', "class UserSerializer(", "serializers.ModelSerializer):\n");
  }

  lemma SerializerMetaLacksQuote()
    ensures '\'' !in SerializerMeta
  {
    SerializerClassLineLacksQuote();
    NotInEither('\'', SerializerClassLine, "    class Meta:\n");
    NotInEither('\'', SerializerClassLine + "    class Meta:\n", "        model = User\n");
    NotInEither('\'', SerializerClassLine + "    class Meta:\n" + "        model = User\n", "        fields = ");
  }

  lemma PlainSerializerHeadLacksQuote()
    ensures '\'' !in PlainSerializerImports + SerializerMeta
  {
    SerializerImportsLackQuote();
    SerializerMetaLacksQuote();
    NotInEither('\'', PlainSerializerImports, SerializerMeta);
  }

  /** The extra fields are plain words, none of them among the plain serializer's fields or the read-only ones. */
  lemma ExtraFieldIsNew(i: nat)
    requires i < |ExtraUserFields|
    ensures IsListWord(ExtraUserFields[i])
    ensures ExtraUserFields[i] !in SerializedFields(false) && ExtraUserFields[i] !in ReadOnlyFields
  {
  }

  lemma PlainSerializedFieldsUnquoted()
    ensures forall j :: 0 <= j < |SerializedFields(false)| ==> '\'' !in SerializedFields(false)[j]
    ensures forall j :: 0 <= j < |ReadOnlyFields| ==> '\'' !in ReadOnlyFields[j]
  {
  }

  /** The plain serializer quotes none of the extra fields. */
  lemma PlainSerializerOmits(i: nat)
    requires i < |ExtraUserFields|
    ensures !Contains(SerializersText(false), "'" + ExtraUserFields[i] + "'")
  {
    var f := ExtraUserFields[i];
    ExtraFieldIsNew(i);
    PlainSerializedFieldsUnquoted();
    PlainSerializerHeadLacksQuote();
    assert !Contains("\n", "'" + f + "'");
    QuotedNotInListText(ReadOnlyLead, ReadOnlyFields, "\n", f);
    QuotedNotInListText(PlainSerializerImports + SerializerMeta, SerializedFields(false), SerializerTail, f);
  }

  /** The serializer lists each of its fields. */
  lemma SerializerListsFields(user: bool, i: nat)
    requires i < |SerializedFields(user)|
    ensures Contains(SerializersText(user), "'" + SerializedFields(user)[i] + "'")
  {
    var fields := SerializedFields(user);
    var quoted := Quoted(fields);
    JoinContains(quoted, ", ", i);
    ContainsInfix("[", Join(quoted, ", "), "]");
    ContainsTransitive(PyList(fields), Join(quoted, ", "), quoted[i]);
    var imports := if user then CustomUserSerializerImports else PlainSerializerImports;
    ContainsInfix(imports + SerializerMeta, PyList(fields), SerializerTail);
    ContainsTransitive(SerializersText(user), PyList(fields), quoted[i]);
  }

  /** The migration creates a column for each of its columns, in particular for each extra field. */
  lemma MigrationCreatesColumns(i: nat)
    requires i < |MigrationColumns()|
    ensures Contains(MigrationText(), ColumnKey(MigrationColumns()[i].name))
  {
    var cols := MigrationColumns();
    var line := ColumnLine(cols[i]);
    var key := ColumnKey(cols[i].name);
    ConcatContains(ColumnLines(cols), i);
    ContainsInfix(MigrationHead, Concat(ColumnLines(cols)), MigrationTail);
    ContainsTransitive(MigrationText(), Concat(ColumnLines(cols)), line);
    ContainsHalves(MigrationText(), ColumnIndent + key + cols[i].field, "),\n");
    ContainsHalves(MigrationText(), ColumnIndent + key, cols[i].field);
    ContainsHalves(MigrationText(), ColumnIndent, key);
  }

  lemma ExtraColumnAt(i: nat)
    requires i < |ExtraUserFields|
    ensures |BaseColumns| + i < |MigrationColumns()| && MigrationColumns()[|BaseColumns| + i].name == ExtraUserFields[i]
  {
    assert ExtraColumns()[i].name == ExtraUserFields[i];
  }

  lemma MigrationCreatesExtraColumns(i: nat)
    requires i < |ExtraUserFields|
    ensures Contains(MigrationText(), ColumnKey(ExtraUserFields[i]))
  {
    var k := |BaseColumns| + i;
    ExtraColumnAt(i);
    MigrationCreatesColumns(k);
    assert ColumnKey(MigrationColumns()[k].name) == ColumnKey(ExtraUserFields[i]);
  }

  lemma SerializerListsExtraFields(i: nat)
    requires i < |ExtraUserFields|
    ensures Contains(SerializersText(true), "'" + ExtraUserFields[i] + "'")
  {
    assert SerializedFields(true)[3 + i] == ExtraUserFields[i];
    SerializerListsFields(true, 3 + i);
  }

  /**
   * The custom user's extra fields agree across the generated files: the
   * model declares each one, the migration creates its column, the admin
   * shows it, and the serializer exposes it.
   */
  lemma CustomUserFieldsAgree(i: nat)
    requires i < |ExtraUserFields|
    ensures Contains(ModelsText(true), "    " + ExtraUserFields[i] + " = ")
    ensures Contains(MigrationText(), ColumnKey(ExtraUserFields[i]))
    ensures Contains(AdminText(true), "'" + ExtraUserFields[i] + "'")
    ensures Contains(SerializersText(true), "'" + ExtraUserFields[i] + "'")
  {
    ModelsDeclareFields(i);
    AdminShowsFields(i);
    MigrationCreatesExtraColumns(i);
    SerializerListsExtraFields(i);
  }
}
